# Music Player Daemon: a verified model of the playback core

A Dafny 4.11 model of the parts of the Music Player Daemon in which threads share
chunks, buffers and wake-ups, with proofs over every run. `src/` is the 0.20 development
version; the player thread, `GlobalEvents` and `Idle` are those of 0.19.19 under
`mpd-0.19.19/src/`.

`dafny verify dfyconfig.toml` checks everything.

| file | what it models |
|---|---|
| `Common.dfy` | optional values, 32 bit range, distinct elements |
| `OutputPipeline.dfy`, `OutputSafety.dfy`, `OutputRuns.dfy` | the player and N output threads walking one shrinking pipe by raw pointers: a step system with one step per region between mutex releases, its invariant, and its runs |
| `OutputTheorems.dfy`, `OutputOrigin.dfy`, `OutputPending.dfy`, `OutputWitnesses.dfy` | what holds in all those runs, when three assertions can fail, and runs from the start in which they do |
| `OutputCommands.dfy`, `OutputCheck.dfy` | what the commands and operations of the player achieve, where every chunk is, and which chunks `Check` gives back |
| `Player.dfy` | the player thread's state machine with decoder, pipes, cross-fading and abstract outputs |
| `Bridge.dfy` | the decoder bridge: PCM into frame-aligned chunks, tags, seeks, the initial seek |
| `MusicChunk.dfy` | one chunk: room for whole frames, writing and expanding |
| `MusicPipe.dfy` | the linked chunk list on the heap and the chunk pool |
| `EventLoop.dfy`, `Masks.dfy` | deferred calls, the `busy`/wake-fd shortcut, timers with 32 bit time stamps; event masks coalesced over them |
| `Icy.dfy` | the in-place ICY demultiplexer and the stream around it |
| `Client.dfy` | requests, command lists, idle and the timeout of one client |
| `PollGroup.dfy` | the swap-remove indices of the `poll` and `select` groups |
| `Compressor.dfy` | the integer audio compressor |
| `SongText.dfy` | the song text printer and loader |

The form follows the source: objects with mutable fields are classes, loops are loops with
invariants, threads that interleave are step systems over whole runs (`IsRun`), and device
calls, command handlers, sockets and clocks are inputs or nondeterministic results.
Assertions of the source are proved, or become a `fault` whose exact condition is proved.

Safety is proved for every interference. What a turn of the player achieves is stated for an
undisturbed one (`calm`: the decoder thread is not scheduled meanwhile, the outputs do not fail
and a chunk is free), and what a client is sent for connections that survive (`reliable`: no
write fails).

## What turned out to be false

Where an assertion or a promise of the source fails, the code is kept as it is. Each case below
names the member with the exact condition and, where the failure needs a history, one that
builds it from the initial state.

- `assert(busy)` behind the event loop (`src/event/Loop.cxx:218`) fails when `quit` is seen
  after the `_again` shortcut: `ExitAssertionExactly`; a run: `ExitAssertionFails`.
- `assert(!quit)` at its start (`src/event/Loop.cxx:136`) fails exactly when `Break` has come
  before `Run`: `StartAssertionsExactly`.
- A timeout of 2^31 ms or more, such as a `connection_timeout` of 25 days
  (`src/client/ClientNew.cxx:56`), looks overdue as soon as it is set, and runs at once:
  `TimerRunsEarlyExactly`; without such timeouts no timer runs early: `NoTimerRunsEarly`; a run
  for every such timeout: `LongTimeoutRunsAtOnce`.
- Timers are ordered by a 32 bit `due_ms`, so the loop can sleep past a timer in front of the
  wrap when another one behind it is armed: `SleepsInTimeExactly`; a run: `SleepsPastTimer`.
- `MaskMonitor::Cancel()` with bits in the mask that are only scheduled loses them, and every
  later one, for good: `CancelLosesExactly`, `StuckForever`; a run: `CancelLosesBit`. Nothing in
  `src/` calls `Cancel()` on a `MaskMonitor`; the method is public, so the runs include it.
- `assert(open)` of the CLOSE case (`src/output/OutputThread.cxx:628`) can fail exactly when a
  device call that may fail is under way as the command is sent, by `LockUpdate` or by `Close`,
  or is sure to follow (PAUSE is being answered): `CloseFindsOutputOpenExactly`; a run:
  `CloseAssertionFails`. A thread that waits in `WaitForDelay` is in no such call.
- A closed output may still owe an answer to PAUSE, DRAIN or CANCEL, and the next update then
  violates `src/output/OutputControl.cxx:52`. This can happen under exactly the same condition as
  the command is sent, with any number of other outputs: `CommandStaysPendingExactly`, `PendingOnlyWhenClosed`; a run: `AsyncAssertionFails`.
- Reopening an output can open the device without a pipe (`src/output/OutputThread.cxx:137`)
  exactly when its device is being paused at that moment: `ReopenFaultsExactly`; without such a
  reopening no run does so: `PlaybackIsSafe`; a run: `ReopenAssertionFails`.
- `assert(!seeking)` in `DecoderBridge::FlushChunk` fails exactly when a tag or replay gain is
  submitted, or the plugin returns, during a seek with a partial chunk: the `fault` clauses of
  `SubmitTag`, `SubmitReplayGain` and `Finish`; a run for each: `FlushInSeekFails`.
- The assertion in `DecoderBridge::CommandFinished` that the seek was begun or failed
  (`src/decoder/Bridge.cxx:293-295`) fails exactly when the plugin never asked for the position:
  the `fault` clause of `CommandFinished`; a run: `FinishUnaskedFails`.
- `assert(state != START)` in `DecoderControl::Seek` (0.19.19) can fail exactly when the SEEK is
  to the queued song whose decoder still starts although another song plays: `SeekDecoder`,
  `TurnWith`; a run: `SeekToStartingSongFails`.
- A client that expires while a `list_OK` is written, which is then missing from the output, has
  exactly one more command of the list run, if there is one; one that expires while a command is
  run has none: the clauses on `lost` of `ProcessList`.
- The compressor's step is rounded towards zero, so the very peak for which the ramp was cut
  short, positive or negative, can saturate: `GainAtEndOfRamp`, `PeakSaturatesExactly`; two
  blocks: `PeakCanSaturate`.
- A text round trip needs more than the absence of newlines and leading blanks: a URI must not
  end in a carriage return, and tag values must be non-empty and free of control characters:
  `RoundTripExactly`.

## Model

| member | source | states |
|---|---|---|
| OutputTheorems.PlaybackIsSafe | src/output/MultipleOutputs.cxx:258-364 | in every state of every run with any number of outputs, no modelled assertion fails other than `src/output/OutputThread.cxx:628` and `src/output/OutputControl.cxx:52`, which can; and a non-null `current_chunk` belongs to an open output, is in the pipe and is not back in the pool |
| OutputTheorems.PlaybackIsContiguous | src/output/OutputThread.cxx:502-550 | what an output has played is a contiguous piece of the pushed chunks that starts at its origin; its next chunk is the one behind that piece, or the head of the pipe if nothing was played yet, however `Check` removes chunks meanwhile |
| OutputOrigin.OriginIsPipeHead | src/output/OutputThread.cxx:131-186 | the origin only ever becomes the present head of the pipe, and does so whenever the output opens or forgets what it played |
| OutputTheorems.NoLostPlayWakeup | src/output/OutputControl.cxx:192-250 | a thread asleep without a signal has no command, and no unplayed chunk about which `LockPlay` has returned |
| OutputTheorems.ReopenFaultsExactly | src/output/OutputThread.cxx:131-165 | when an open output is reopened, a run can open a device without a pipe before the operation ends if and only if the device is being paused then |
| OutputTheorems.CloseFindsOutputOpenExactly | src/output/OutputThread.cxx:625-632 | for both senders of CLOSE: the CLOSE case can meet a closed output if and only if a device call that may fail is under way, or follows unconditionally, when it is sent |
| OutputPending.PendingOnlyWhenClosed | src/output/OutputControl.cxx:49-56 | between player operations only a closed output has a command pending, and only PAUSE, DRAIN or CANCEL |
| OutputPending.CommandStaysPendingExactly | src/output/MultipleOutputs.cxx:125-143 | for PAUSE, DRAIN and CANCEL and any number of outputs: the operation can end in a state whose next `LockUpdate` violates the assertion of `CommandAsync` if and only if a device call that may fail is under way, or follows unconditionally, when the command is sent |
| OutputWitnesses.CloseAssertionFails | src/output/OutputThread.cxx:625-632 | a run from the start meets CLOSE with a closed output |
| OutputWitnesses.AsyncAssertionFails | src/output/OutputControl.cxx:49-56 | a run from the start sends a command while PAUSE is pending |
| OutputWitnesses.ReopenAssertionFails | src/output/OutputThread.cxx:131-165 | a run from the start opens a device without a pipe |
| OutputSafety.StepKeepsInv | src/output/MultipleOutputs.cxx:402-447 | every enabled action of the player and of any output keeps the invariant on pointers, locks, run, wake-ups and positions |
| OutputSafety.RunKeepsInv | src/output/OutputThread.cxx:586-692 | the invariant holds in every state of every run |
| OutputSafety.NextChunkFollowsRun | src/output/OutputThread.cxx:502-510 | following `next` from the current chunk gives the log entry after the run, also at the tail |
| OutputCommands.ChunksAreConserved | src/output/MultipleOutputs.cxx:325-364 | in every state of every run each chunk is in the pipe, in the player's hand or in the pool, in exactly one of them, and all are there except those the decoder has allocated and not pushed |
| OutputCheck.CheckReturnsExactly | src/output/MultipleOutputs.cxx:258-364 | undisturbed, `Check` ends with exactly the chunks returned that every output has passed, for any number of outputs and chunks |
| OutputCommands.FinishedMeansDone | src/output/OutputThread.cxx:586-692 | a command is finished only when its plugin call has returned: a closed or disabled output is closed, an open one is paused, cancelled or drained, and opening has succeeded exactly if the device says so |
| OutputCommands.OperationsAchieve | src/output/MultipleOutputs.cxx:366-447 | when `Pause` returns every open output is paused; when `Drain`, `Cancel` or `Close` does the pipe is empty and no output has a chunk of it, after `Close` all are closed; when `Play` does no output sleeps over the chunk |
| OutputCommands.UpdatesAchieve | src/output/OutputControl.cxx:64-190 | when an update or `EnableDisable` returns, a disabled output and one that had to be closed are closed, and one that had to go on is not paused, whatever the others do |
| OutputCommands.AwakeThreadPlays | src/output/OutputThread.cxx:512-550 | an output thread that is awake and allowed to play plays the next chunk of the pipe, and sleeps only without one |
| Player.Player.Run | mpd-0.19.19/src/PlayerThread.cxx:919-1107 | for every script of client commands and every decoder behaviour, a run ends with no pipe, an idle decoder, no queued song and only the outputs holding chunks, or at a SEEK to a song that an earlier QUEUE of the script named |
| Player.Player.TurnWith | mpd-0.19.19/src/PlayerThread.cxx:943-1081 | every turn of the loop with any command at its head keeps the invariant: queued iff `next_song` is set, a second pipe only while queued, paused iff the state says so, outputs usable when used, no pipe leaked or dangling, every chunk in exactly one place; the assertion of `DecoderControl::Seek` fails only at a SEEK to the song whose decoder starts, and there unless the decoder moves on in time; undisturbed and without a command, it does what `Turn` says |
| Player.Player.Turn | mpd-0.19.19/src/PlayerThread.cxx:953-1081 | the part behind the command keeps that invariant, the pending command and the fault flag; undisturbed, it plays exactly the first chunk, enters the next song in the decoder's pipe once everything is played and not before, lets no open output run dry while it waits for the decoder, and ends the run exactly if no song is left |
| Player.Player.ProcessCommand | mpd-0.19.19/src/PlayerThread.cxx:596-695 | every command ends with the invariant and no command pending, or with one that quits; SEEK and CANCEL leave no `next_song`, SEEK leaves the decoder at the song sought and nothing to play, PAUSE toggles, a late CANCEL becomes STOP; only SEEK faults, under the condition of `SeekDecoder` |
| Player.Player.QueueSong | mpd-0.19.19/src/PlayerThread.cxx:613-626 | the three assertions of QUEUE hold, and the queued song gets a pipe of its own if the decoder is idle |
| Player.Player.CancelQueued | mpd-0.19.19/src/PlayerThread.cxx:658-679 | afterwards no second pipe and no next song exist; a cancel that is too late becomes STOP; the player's own pipe and a decoder at the current song are untouched |
| Player.Player.TogglePause | mpd-0.19.19/src/PlayerThread.cxx:628-650 | pauses a playing player; a paused one goes on with open outputs, or without if there is no format yet, and stays paused only if the outputs fail |
| Player.Player.SeekDecoder | mpd-0.19.19/src/PlayerThread.cxx:521-593 | ends with the decoder at the song sought, in the player's pipe, nothing queued and nothing left for the outputs; an undisturbed successful seek has emptied the pipe and buffers again; `DecoderControl::Seek` is called during start only if, before the SEEK, the decoder is starting on the song sought while the player does not wait for it, and then always if the decoder makes no progress meanwhile |
| Player.SeekToStartingSongFails | mpd-0.19.19/src/decoder/DecoderControl.cxx:107-121 | a run from a new player in which it fails: the first song is decoded and paused, the next one is queued, and the client seeks in it while its decoder starts |
| Player.Player.StartDecoder | mpd-0.19.19/src/PlayerThread.cxx:289-302 | called only with a queued or seeked song, an idle decoder and an empty pipe; no pipe is forgotten |
| Player.Player.StopDecoder | mpd-0.19.19/src/PlayerThread.cxx:304-319 | the decoder is idle without a pipe, its chunks are back in the pool, the player's other pipe is untouched |
| Player.Player.WaitForDecoder | mpd-0.19.19/src/PlayerThread.cxx:321-366 | the queued song becomes current, or is dropped if the decoder failed |
| Player.Player.SongBorder | mpd-0.19.19/src/PlayerThread.cxx:889-917 | the pipe deleted at the border is empty, the decoder's becomes the player's with its contents, the queued song becomes current, paused exactly if the client wants that; it fails exactly if the decoder has |
| Player.Player.CheckDecoderStartup | mpd-0.19.19/src/PlayerThread.cxx:428-479 | opens the outputs only when the decoder has a format and the previous song is played out, and then does; never leaves a start unnoticed |
| Player.Player.OpenOutput | mpd-0.19.19/src/PlayerThread.cxx:389-425 | open outputs and PLAY, or closed ones, PAUSE and their chunks given back |
| Player.Player.SendSilence | mpd-0.19.19/src/PlayerThread.cxx:482-519 | the outputs are open; the chunk of silence is in the output pipe or back in the pool |
| Player.Player.PlayNextChunk | mpd-0.19.19/src/PlayerThread.cxx:756-886 | unless the outputs have 64 chunks, or a cross-fade waits for the decoder, exactly the first chunk leaves the pipe and is sent behind those the outputs still have, with the first chunk of the next song attached exactly if a fade is due and it has audio; no chunk is lost or doubled |
| Player.Player.ChooseOther | mpd-0.19.19/src/PlayerThread.cxx:766-833 | a chunk is faded in exactly near the end of a song with a fade and a decoded next song; the player waits exactly if none is decoded yet and the decoder is at it, and gives the fade up if it is not |
| Player.Player.DecideCrossFade | mpd-0.19.19/src/PlayerThread.cxx:1003-1027 | the fade is decided once per song, when the decoder is ready with the next one and no pause is due |
| Player.Player.PlayFirst | mpd-0.19.19/src/PlayerThread.cxx:724-752 | the first chunk leaves the pipe; the first chunk of the next song is attached exactly if asked to and if it has audio, else it is given back; the two end last in the output pipe if they are played, and are back in the pool if they have no audio or the outputs fail, which pauses the player |
| Player.Player.ReleaseOutputs | mpd-0.19.19/src/PlayerThread.cxx:1155-1165 | after the player has stopped and audio is closed, no chunk is in use |
| Player.GiveBack | src/MusicBuffer.cxx:37-50 | removing what is accounted in one place leaves exactly the other places |
| Bridge.DecoderBridge.SubmitData | src/decoder/Bridge.cxx:431-532 | the stream grows by the new stream tag, merged with the plugin's, and then a frame-aligned prefix of the converted input, all of it on NONE; the time stamp advances by exactly that; NONE is returned only in front of the end of the range, and no more than one chunk is produced behind it; nothing is produced while the initial seek is pending or running; no assertion fails |
| Bridge.DecoderBridge.CopyAll | src/decoder/Bridge.cxx:484-531 | the copy loop terminates for every frame size that fits a chunk, and stops early only for a command or the end of the range |
| Bridge.DecoderBridge.FillCurrent | src/decoder/Bridge.cxx:493-519 | copies whole frames into the current chunk and never keeps a full one; without progress the chunk was full |
| Bridge.DecoderBridge.FlushChunk | src/decoder/Bridge.cxx:119-136 | the initial-seek assertions hold, the stream is unchanged, empty chunks do not reach the pipe, and the fault is raised exactly during a seek; no chunk leaks |
| Bridge.DecoderBridge.GetChunk | src/decoder/Bridge.cxx:95-116 | a chunk, or none and a command; a present chunk is kept |
| Bridge.DecoderBridge.PrepareInitialSeek | src/decoder/Bridge.cxx:138-176 | a pending seek runs exactly if the song is seekable and no command is there once decoding has begun, and is over otherwise; the phases are never gone back |
| Bridge.DecoderBridge.GetVirtualCommand | src/decoder/Bridge.cxx:178-191 | STOP after an error, SEEK during the initial seek, else the player's command; NONE only outside every seek |
| Bridge.DecoderBridge.GetSeekTime | src/decoder/Bridge.cxx:327-340 | a plugin that was given SEEK finds a seek to do, and gets the right one of the two positions |
| Bridge.DecoderBridge.CommandFinished | src/decoder/Bridge.cxx:287-324 | the initial seek ends with no chunk and an empty pipe, any other seek drops what was produced; the assertion on the seek fails exactly if the plugin neither asked for the position nor reported an error |
| Bridge.DecoderBridge.SeekError | src/decoder/Bridge.cxx:348-366 | ends the seek without touching pipe or chunk, or the time stamp |
| Bridge.DecoderBridge.SubmitTag | src/decoder/Bridge.cxx:534-573 | the stream grows by exactly the merged tag unless a command is returned, the fault is raised exactly during a seek with a partial chunk |
| Bridge.DecoderBridge.SubmitReplayGain | src/decoder/Bridge.cxx:575-605 | the same for new replay gain values |
| Bridge.DecoderBridge.DoSendTag | src/decoder/Bridge.cxx:200-219 | flushes a partial chunk, then a new chunk with the tag, or a command |
| Bridge.DecoderBridge.UpdateStreamTag | src/decoder/Bridge.cxx:221-243 | the song tag is used at most once, and not after a stream tag |
| Bridge.DecoderBridge.Ready | src/decoder/Bridge.cxx:245-278 | decoding starts with nothing produced and the phase of the initial seek unchanged |
| Bridge.DecoderBridge.Finish | src/decoder/DecoderThread.cxx:455-480 | the final flush leaves no chunk behind and loses no audio; the fault condition of `FlushChunk`; no chunk leaks |
| Bridge.DecoderBridge.SeekTooLate | src/decoder/DecoderThread.cxx:543-555 | a seek after the end starts the song again on an empty pipe |
| Chunks.MusicChunk.Expand | src/MusicChunk.cxx:66-77 | reports full exactly if no further frame fits |
| Chunks.MusicChunk.Write | src/MusicChunk.cxx:42-64 | the writable part is the largest number of whole frames that fits |
| Chunks.RoomExactly | src/MusicChunk.cxx:61-63 | a chunk has room if and only if one more frame fits, so an empty one is useless exactly for frames larger than a chunk |
| Bridge.FlushInSeekFails | src/decoder/Bridge.cxx:119-136 | a run from a new bridge for each of tag, replay gain and return of the plugin in which the assertion fails |
| Bridge.FinishUnaskedFails | src/decoder/Bridge.cxx:287-324 | a run in which the assertion on the seek fails |
| Bridge.ContentsAppend | src/decoder/Bridge.cxx:127-131 | pushing a packet appends its tag and audio to the stream |
| MusicPipe.MusicPipe.Push | src/MusicPipe.cxx:84-106 | the linked list with its tail pointer represents the old sequence with the chunk at the end |
| MusicPipe.MusicPipe.Shift | src/MusicPipe.cxx:41-73 | returns the head and leaves the rest; the assertions on size and tail pointer hold |
| MusicPipe.MusicPipe.Contains | src/MusicPipe.cxx:27-37 | walking `next` finds exactly the chunks of the sequence |
| MusicPipe.MusicPipe.Clear | src/MusicPipe.cxx:75-82 | the pool gets back exactly the chunks of the list and those attached to them |
| MusicPipe.MusicBuffer.Allocate | src/MusicBuffer.cxx:30-35 | a chunk nobody has, unless all are in use |
| MusicPipe.MusicBuffer.Return | src/MusicBuffer.cxx:37-50 | frees the chunk and its attached one, and nothing else |
| MusicPipe.SplitCells | src/MusicPipe.cxx:75-82 | the first chunk and its attachment are disjoint from those of the others |
| EventLoop.NoLostDeferredCall | src/event/Loop.cxx:224-296 | in every interleaving, a loop blocked in poll with a deferred call has been woken or is about to be; pending iff in the list, once |
| EventLoop.CallsAreInOrder | src/event/Loop.cxx:79-98 | in every run deferred calls and idle calls are made in the order they were asked for, each once and none that was withdrawn: the log replays on two plain queues and ends with those of the loop |
| EventLoop.NoIdleCallWaits | src/event/Loop.cxx:79-98 | the loop never blocks with an idle call waiting |
| EventLoop.WokenLoopCalls | src/event/Loop.cxx:284-296 | a woken loop makes the first deferred call before anything else, with the time up to date |
| EventLoop.CallsAreEntered | src/event/Loop.cxx:168-176 | a call is recorded exactly when its callback is entered |
| EventLoop.BreakIsNotLost | src/event/Loop.cxx:54-59 | a blocked loop that shall quit is woken or about to be, and leaves when poll returns; it never leaves without `Break` |
| EventLoop.QuitsSoon | src/event/Loop.cxx:160-214 | after `Break` the loop has left within eight steps of its own, whatever other threads do, and enters at most one more callback |
| EventLoop.TimersAreAMap | src/event/Loop.cxx:100-122 | the list of timers refines a map from active timers to deadlines: scheduling sets one, cancelling and running remove one, nothing else changes it |
| EventLoop.DueTimerIsRun | src/event/Loop.cxx:139-164 | a first timer that is due when a turn begins is run in that turn |
| EventLoop.ActiveIffOneRecord | src/event/TimeoutMonitor.cxx:24-56 | a timer is active iff exactly one record of it exists |
| EventLoop.TimerRunsEarlyExactly | src/event/Loop.cxx:143-164 | for every timeout an `unsigned` can hold: a timer that is popped has not reached the time that was meant if and only if that is 2^31 ms ahead or more |
| EventLoop.NoTimerRunsEarly | src/event/Loop.cxx:143-164 | so in runs whose timeouts are all shorter than 2^31 ms, every popped timer has reached it, whatever the 32 bit stamps |
| EventLoop.LongTimeoutRunsAtOnce | src/event/Loop.cxx:100-109 | for every longer timeout, a run of four actions from the start that runs it with no time passed |
| EventLoop.SleepsInTimeExactly | src/event/Loop.cxx:139-199 | a blocked loop wakes before every armed timer if and only if no timer belongs to an earlier turn of the 32 bit clock than the end of the sleep, also when callbacks change timers after the timeout was computed |
| EventLoop.SleepEndsAtDeadline | src/event/Loop.cxx:153 | the sleep ends at the deadline it was computed from, unless that is overdue by 2^31 ms |
| EventLoop.SleepsInTimeWithinTurn | src/event/Loop.cxx:139-199 | so it always does while all deadlines lie in one turn of that clock and the first is not overdue by 2^31 ms |
| EventLoop.SleepsPastTimer | src/event/Loop.cxx:100-109 | a concrete run in which it does not |
| EventLoop.TimeoutExact | src/event/Loop.cxx:153 | the wrapping difference is the real one within half the range |
| EventLoop.TimeoutTurnsNegative | src/event/Loop.cxx:153 | it is negative for every record further ahead |
| EventLoop.StartAssertionsExactly | src/event/Loop.cxx:125-137 | before `Run`, `quit` is set if and only if `Break` was called, and `busy` always is |
| EventLoop.ExitAssertionExactly | src/event/Loop.cxx:185-218 | the final assertion holds iff the loop is left after dispatching |
| EventLoop.ExitAssertionFails | src/event/Loop.cxx:215-218 | a concrete run in which it fails |
| EventLoop.RunKeepsInv | src/event/Loop.cxx:124-222 | the invariant on list, wake-up and timers holds in every state of every run |
| EventLoop.StepKeepsInv | src/event/Loop.cxx:224-282 | every action of every thread keeps it |
| EventLoop.InsertInv | src/event/Loop.cxx:100-109 | inserting keeps the order, validity and number of records |
| Masks.NoLostEventBit | src/event/MaskMonitor.cxx:23-36 | in runs without `Cancel`, every bit set and not delivered since is in the mask or taken by a running callback, and a loop blocked with such a bit has been or is about to be woken |
| Masks.DeliversExactly | src/event/MaskMonitor.cxx:23-36 | with or without `Cancel`, each callback gets exactly the bits set since the mask was last taken, never none and none twice |
| Masks.CancelLosesExactly | src/event/MaskMonitor.cxx:23-36 | a `Cancel` in a run breaks that guarantee if and only if the mask is not empty, no callback has been entered that is yet to take it, and nobody is about to schedule; then for good, and none of those bits is delivered later |
| Masks.StuckForever | src/event/MaskMonitor.cxx:23-36 | from such a state on, in every continuation, the mask only grows and the log has no further delivery |
| Masks.CancelLosesBit | src/event/MaskMonitor.cxx:23-36 | a run of three actions from the start that loses a given bit |
| Masks.NoLostIdleFlag | mpd-0.19.19/src/GlobalEvents.cxx:56-96 | the two-level chain loses no flag and invents none: every flag added and not collected is still on its way, each collection has exactly those added since the one before, and every emitted event awaits its handler |
| Masks.ChainStepInv | mpd-0.19.19/src/Idle.cxx:53-68 | every atomic step of `idle_add`, `Emit`, `RunDeferred` and `idle_get` keeps the chain invariant |
| Icy.SplitInvariance | src/IcyMetaDataParser.cxx:48-66 | for every stream and every way of cutting it, audio and metadata are those of the recursive whole-stream demultiplexer |
| Icy.RunIsDemux | src/IcyMetaDataParser.cxx:167-222 | the byte automaton computes that demultiplexer |
| Icy.PiecesAreOneRun | src/IcyMetaDataParser.cxx:225-252 | running it piece by piece is one run |
| Icy.RunAppend | src/IcyMetaDataParser.cxx:225-252 | a run may be interrupted anywhere |
| Icy.IcyMetaDataParser.ParseInPlace | src/IcyMetaDataParser.cxx:225-252 | terminates, leaves the audio of exactly these bytes at the start of the buffer and the automaton's state in the fields |
| Icy.IcyMetaDataParser.Round | src/IcyMetaDataParser.cxx:228-249 | one turn consumes something, and writes never pass reads |
| Icy.IcyMetaDataParser.Data | src/IcyMetaDataParser.cxx:48-66 | counts down to the next metadata |
| Icy.IcyMetaDataParser.Meta | src/IcyMetaDataParser.cxx:167-222 | consumes part of a metadata block as the automaton does |
| Icy.MoveDown | src/IcyMetaDataParser.cxx:235-237 | the overlapping move keeps the bytes |
| Icy.IcyInputStream.Read | src/input/IcyInputStream.cxx:81-99 | what was delivered is the audio of what was consumed, the offset is its length, and 0 means the end |
| Client.Client.Run | src/client/ClientRead.cxx:29-75 | for every script of input, flags, timeouts and errors: one answer per request except for one that waits; a waiting client has no timeout and no subscribed flag outstanding, any other has a timeout; every notification reported exactly the subscribed flags raised since the one before; what a surviving client has been sent, what was run for it and its idle state are those of a specification over the events alone |
| Client.Client.OnSocketInput | src/client/ClientRead.cxx:29-75 | consumes exactly one line or nothing; afterwards the client is closed or valid, and then what it was sent is what the protocol says; without write errors it is kept exactly if the line does not end the session |
| Client.Client.ProcessLine | src/client/ClientProcess.cxx:53-140 | a kept client has run and been sent exactly what the specification of the line says, and stays valid; anything but noidle during idle closes without an answer; noidle outside idle does nothing |
| Client.Client.ProcessList | src/client/ClientProcess.cxx:31-51 | runs the commands up to the first that does not succeed, with their places; prints one list_OK per success and an ACK with the number of successes; if the client expires at a list_OK, those before it are printed and exactly one more command is run; if it expires in a command, all before that command are printed and none is run after it |
| Client.Client.EndList | src/client/ClientProcess.cxx:79-100 | exactly the collected list is run up to its first command that does not succeed, with one answer for all, or enters idle |
| Client.Client.SingleCommand | src/client/ClientProcess.cxx:121-136 | runs exactly that command, with one answer, or enters idle |
| Client.Client.AddToList | src/command/CommandListBuilder.cxx:33-43 | refuses exactly the line that makes the list too large |
| Client.Client.IdleNotify | src/client/ClientIdle.cxx:26-46 | prints the subscribed outstanding flags in order and one OK, forgets the others, arms the timeout |
| Client.Client.IdleAdd | src/client/ClientIdle.cxx:48-57 | a waiting client is answered exactly if a subscribed flag is raised; an expired one is not touched |
| Client.Client.IdleWait | src/client/ClientIdle.cxx:59-75 | answers at once exactly if something is outstanding, else waits without a timeout |
| Client.Client.CommandProcess | src/command/AllCommands.cxx:360-420 | a failed command prints one ACK with its place |
| Client.Client.OnTimeout | src/client/ClientExpire.cxx:34-43 | a live client is never waiting then |
| Client.SuccessesAreFirst | src/client/ClientProcess.cxx:38-48 | the counted commands succeed and the next one does not |
| Client.ChangesNameFlags | src/client/ClientIdle.cxx:36-41 | the lines of a notification name each flag exactly once |
| Client.NotifyKeeps | src/client/ClientIdle.cxx:26-46 | a notification keeps the history faithful and leaves nothing outstanding |
| Client.FindNewline | src/client/ClientRead.cxx:31-35 | the length of the first line, 0 if there is none |
| PollGroup.PollGroupPoll.Add | src/event/PollGroupPoll.cxx:31-45 | refines adding to a map; slots and map stay inverse |
| PollGroup.PollGroupPoll.Modify | src/event/PollGroupPoll.cxx:47-57 | refines updating the map, and masks stale results |
| PollGroup.PollGroupPoll.Remove | src/event/PollGroupPoll.cxx:59-73 | swap-remove refines removing from the map |
| PollGroup.PollGroupPoll.ReadEvents | src/event/PollGroupPoll.cxx:75-87 | reports every ready descriptor exactly once with its own object, although the scan stops early |
| PollGroup.RemoveKeeps | src/event/PollGroupPoll.cxx:59-73 | slots and map are inverse again after the swap |
| PollGroup.NothingLeft | src/event/PollGroupPoll.cxx:80-86 | when the count is used up, no ready slot is left |
| PollGroup.PollGroupWinSelect.ModifyEvent | src/event/PollGroupWinSelect.cxx:45-61 | changes one event of one descriptor and nothing else; both sets stay inverse to the map |
| PollGroup.PollGroupWinSelect.Add | src/event/PollGroupWinSelect.cxx:63-85 | refused exactly if a needed set is full, and then nothing changes |
| PollGroup.PollGroupWinSelect.Modify | src/event/PollGroupWinSelect.cxx:87-102 | the same for a registered descriptor |
| PollGroup.PollGroupWinSelect.Remove | src/event/PollGroupWinSelect.cxx:104-114 | refines removing from the map |
| PollGroup.LeaveKeeps | src/event/PollGroupWinSelect.cxx:53-60 | the swap repairs the index of the moved descriptor |
| Compressor.Compressor.Process | src/AudioCompress/compress.c:92-191 | for every sequence of blocks: the recorded gain is in range and clips no peak of the history; every output sample is the clamped product with the ramp's gain; every product fits 32 bits and every output 16; no sample behind the ramp saturates, and none at all while the gain rises |
| Compressor.FindPeak | src/AudioCompress/compress.c:108-120 | the loudest sample and its first place |
| Compressor.HistoryPeak | src/AudioCompress/compress.c:123-130 | the maximum of block and history |
| Compressor.AmplifyBlock | src/AudioCompress/compress.c:165-188 | each sample times its ramp gain, in place |
| Compressor.GainIsSafe | src/AudioCompress/compress.c:140-157 | the new gain is between 1023 and the maximum, and the loudest peak does not exceed 32767 under it; it is the wanted one exactly if that does not clip |
| Compressor.GainFits | src/AudioCompress/compress.c:133-138 | the intermediate products fit 32 bits |
| Compressor.WantedIs | src/AudioCompress/compress.c:133-147 | the wanted gain is the rounded average of the gain so far and the one that takes the peak to the target, limited to the allowed range |
| Compressor.GainMovesTowardsTarget | src/AudioCompress/compress.c:133-138 | that average lies between the two |
| Compressor.GainFallsWithPeak | src/AudioCompress/compress.c:133-147 | a louder peak never gets a greater gain |
| Compressor.RampStaysBetween | src/AudioCompress/compress.c:163-187 | the ramp never leaves the interval between old and new gain |
| Compressor.SamplesFit | src/AudioCompress/compress.c:171-182 | sample products fit 32 bits, outputs 16 |
| Compressor.NoClipBehindRamp | src/AudioCompress/compress.c:171-187 | no sample behind the ramp saturates |
| Compressor.NoClipWhileRising | src/AudioCompress/compress.c:171-187 | while the gain rises none saturates at all |
| Compressor.GainAtEndOfRamp | src/AudioCompress/compress.c:163-187 | a falling ramp ends above the new gain by the remainder of the division |
| Compressor.PeakSaturatesExactly | src/AudioCompress/compress.c:149-187 | the sample at the end of a falling ramp, of either sign, is cut off if and only if it does not fit 16 bits under the new gain plus that remainder |
| Compressor.PeakCanSaturate | src/AudioCompress/compress.c:92-191 | two blocks after which `Process` has cut off the peak itself |
| SongText.RoundTripExactly | src/SongSave.cxx:60-121 | the printed text loads back to the same song if and only if the song is well-formed |
| SongText.BodyIsLoaded | src/SongSave.cxx:38-71 | range, playlist flag, ordered tags and modification time are restored |
| SongText.LoadedIsPlain | src/SongSave.cxx:73-121 | whatever the text, a loaded song can be saved and loaded |
| SongText.LoadsWhatIsSaid | src/SongSave.cxx:73-121 | any text is refused exactly if one of its lines has no key the loader knows; otherwise of every field the last line decides, and the tags are those of the tag lines in order |
| SongText.UnsignedWraps | src/SongSave.cxx:104-109 | numbers beyond 32 bits lose their high bits, and beyond 64 bits they saturate first |
| SongText.IntWraps | src/SongSave.cxx:100-101 | the same for modification times |
| SongText.ItemsAreLoaded | src/TagSave.cxx:35-37 | the tag lines restore the list in order |
| SongText.RangeIsLoaded | src/SongSave.cxx:38-45 | the three forms of the range are restored |
| SongText.UriIsRead | src/util/TextFile.hxx:34-50 | the first line is restored up to a carriage return at its end |
| SongText.IntRoundTrip | src/SongSave.cxx:100-101 | every 32 bit modification time survives |
| SongText.TagIsFound | src/tag/Tag.cxx:29-42 | every tag name is found at its own number |
| SongText.SongLoad | src/SongSave.cxx:80-118 | the line loop computes the loader's specification |
| SongText.TagSave | src/TagSave.cxx:27-38 | the printing loop computes the specified text |

## Left out

- Plugins, codecs, mixers, filters and PCM conversion: their results are nondeterministic.
- `always_on` outputs and `LockRelease`, whose safety depends on callers outside this model; the model's player does not pause on release.
- The retry timer of a failed output and the audio formats in `OutputPipeline.dfy`, with the assertions about them.
- `Player::play_audio_format` is not initialised before the first decoder is ready; `Player.dfy` starts with either value of "defined".
- Client commands in the middle of a player turn, and a STOP that overrides a pending decoder command.
- Audio formats, bit rates, elapsed times, mix ratios and tags in `Player.dfy`; the length of a cross-fade and the fill level are inputs.
- Shutting down the event loop's, the outputs' and the decoder's threads.
- ICY tag text (`icy_parse_tag`), `Reset`, and streams without metadata in `IcyInputStream`; a finished metadata block is an opaque value.
- Shrinking the compressor's history, and its clip tally.
- The value of the printed duration, broken UTF-8 and NUL characters in `SongText.dfy`.
- `PollGroupWinSelect::ReadEvents`, the other poll groups, and sockets.
- Response bodies of commands; a handler is one of its possible outcomes, and raises no idle flag on its own client.
- Waiting in `GetChunk`: that a chunk becomes free or a command arrives is assumed, not proved.
- Player.Player.AwaitStartup: the loop that waits for a starting decoder gets a finite patience, after which the decoder is taken to have started; that it ever does is not proved.
- OutputTheorems.PlaybackIsSafe: the runs are those in which no output is reopened while its device is being paused, which is exactly the case shown to fail.
- Bridge.DecoderBridge.GetSeekTime: the plugin is taken to ask for a position only after it was given SEEK, as its interface demands.
- Masks.NoLostEventBit: runs without `Cancel` only, since `Cancel` is the case shown to lose bits.
