# FFMPEGDecoder playback controller, in Dafny

This project models the playback controller of the Unity plugin's
`FFMPEGDecoder` class. The controller drives a native FFmpeg decode engine
and keeps video and audio in step against the audio clock
(`AudioSettings.dspTime`). It does three things:

- It runs the lifecycle state machine: InitFail, Stop, NotInitialized,
  Initializing, Initialized, Start, Pause, SeekFrame, Buffering and Eof,
  numbered from -2 as in the source.
- It runs the per-frame tick (`UpdateDecoder`), which pumps video, resolves
  seeks and buffering, and declares the end of the stream.
- It runs the two audio loops. The puller appends decoded samples to a
  queue. The scheduler hands blocks of `(2048 + 2·overlap)·channels` samples
  to four rotating output sources, dropping only `2048·channels` each time,
  so that each block begins with the last 2·overlap frames of the one
  before.

The project has six modules:

- `States`: the lifecycle states.
- `Timing`: the duration sentinel, the overlap time and the volume clamp.
- `AudioQueue`: the arithmetic of the interleaved sample queue.
- `Playback`: the controller as values. `Player` holds everything the
  controller keeps between calls. There is one function per command, per
  tick and per pass of each audio loop, plus the invariant `Inv`.
- `Decoder`: the class `FFMPEGDecoder`. Its fields hold the controller's
  state, grouped as the `Playback` records, plus an `array<Clip>` for the
  four output sources. Its methods update the fields in place. Each method
  is proved to keep `Valid()` and to turn `Model()` into its `Playback`
  counterpart applied to the old `Model()`.
- `Properties`: the lemmas about `Playback`. `Findings` holds the one
  defect found in the code.

Inputs and outputs are handled as follows:

- Every answer of the native engine is a parameter of the method that asks
  for it. This covers `nativeGrabVideoFrame`, `nativeIsContentReady`,
  `nativeIsVideoBufferEmpty`/`Full`, `nativeIsEOF`, `nativeIsSeekOver`,
  `nativeGetDecoderState`, `nativeStartDecoding`, `nativeGetAudioData`, the
  track formats, and `AudioSource.isPlaying`.
- The clock reading is the parameter `now`.
- The two engine calls that set the playback position are recorded in
  fields: `videoTimeRequest` (`nativeSetVideoTime`) and `seekRequest`
  (`nativeSetSeekTime`).
- `onVideoEnd` is counted in `videoEndCount`.

The coroutines and the worker thread are not stored. The video coroutine
exists exactly while the state is at least Start. The audio coroutine and
the puller exist exactly while, in addition, audio is scheduled (enabled,
not in all-channels mode). A tick or a loop pass outside those states
changes nothing.

In these places the code does not do what a player is commonly expected
to do, and the model follows the code:

- `getVideoCurrentTime` returns `now - globalStartTime` unscaled by the
  playback rate. Only the position handed to the engine by the tick is
  scaled.
- An out-of-range seek goes to 0, not to the nearest bound.
- A looping end of stream re-enters SeekFrame through `replay`, not
  Buffering.
- The position reported while playing does not only grow. Between the
  scheduler's re-anchorings, a tick in Start leaves `globalStartTime`
  unchanged (`Properties.AdvancePlayingFrame`), so the position advances
  with the clock. But the first anchoring (lines 486-490) and a late block
  (lines 503-508) re-anchor the clock and can move the position back
  (`Properties.AnchorSetsPosition`, `Properties.ScheduleRewindsLatePosition`,
  with concrete values in `Properties.PositionStepsBack`).
- A seek does not always resume playback. It leaves the replay flags as
  they are, so if every enabled track was already ready to replay, the
  tick that resolves the seek declares the end instead
  (`Properties.SeekResolvesAtTarget`).
- A seek from Pause on a stream without video never leaves its preview.
  The preview ends only in the video part of the tick (lines 123-149), so
  the decoder stays in Start with the output muted
  (`Properties.AudioOnlyPreviewPersists`).
- `startDecoding` does not always return in Buffering. Starting the video
  coroutine runs one frame tick at once (line 349). That tick moves
  Buffering to Start when the engine's buffer is already full or at its end
  (`Properties.StartDecodingFirstTick`).
- Stop is not safe in every state at or above Initializing (see Findings).

## Model

All source paths are `FFMPEGDecoderPlugin/Scripts/FFMPEGDecoder.cs`.

| member | source | states |
|---|---|---|
| States.ActiveStates | FFMPEGDecoderPlugin/Scripts/FFMPEGDecoder.cs:39-51 | `state >= START` holds exactly for Start, Pause, SeekFrame, Buffering and Eof |
| Timing.KnownDuration | FFMPEGDecoderPlugin/Scripts/FFMPEGDecoder.cs:264-266 | a positive reported duration is kept; anything else becomes the -1 sentinel |
| Timing.ClampVolume | FFMPEGDecoderPlugin/Scripts/FFMPEGDecoder.cs:707 | the stored volume is in [0,1]; it equals the request when the request is in range, and the nearest bound otherwise |
| Timing.ClampVolumeIdempotent | FFMPEGDecoderPlugin/Scripts/FFMPEGDecoder.cs:705-711 | clamping an already clamped volume changes nothing |
| AudioQueue.DataLengthSplit | FFMPEGDecoderPlugin/Scripts/FFMPEGDecoder.cs:321 | audioDataLength is the played length `2048·channels` plus two overlap regions |
| AudioQueue.Block | FFMPEGDecoderPlugin/Scripts/FFMPEGDecoder.cs:510-511 | a scheduled clip holds exactly the first audioDataLength samples of the queue |
| AudioQueue.Consume | FFMPEGDecoderPlugin/Scripts/FFMPEGDecoder.cs:518-521 | scheduling removes exactly `2048·channels` samples from the front and leaves the rest in order, at least both overlap regions |
| AudioQueue.Audible | FFMPEGDecoderPlugin/Scripts/FFMPEGDecoder.cs:510-514 | the part of a clip that plays, from one overlap in for 2048 frames, has the played length |
| AudioQueue.AppendKeepsAligned | FFMPEGDecoderPlugin/Scripts/FFMPEGDecoder.cs:382-390 | appending `frameLength·channels` samples keeps the queue a whole number of frames |
| AudioQueue.ConsumeKeepsAligned | FFMPEGDecoderPlugin/Scripts/FFMPEGDecoder.cs:518-521 | removing one played block keeps the queue a whole number of frames |
| AudioQueue.NextBlockOverlaps | FFMPEGDecoderPlugin/Scripts/FFMPEGDecoder.cs:510-521 | the next clip begins with the last 2·overlap frames of this one (the end of its audible part, then its trailing overlap region), whatever is appended in between |
| AudioQueue.AudibleTiles | FFMPEGDecoderPlugin/Scripts/FFMPEGDecoder.cs:510-521 | the audible parts of two consecutive clips are one contiguous run of the sample stream |
| AudioQueue.RunLengthClosed | FFMPEGDecoderPlugin/Scripts/FFMPEGDecoder.cs:497 | the played length of n blocks, summed block by block, is n·2048·channels |
| AudioQueue.ConsumeRunDrops | FFMPEGDecoderPlugin/Scripts/FFMPEGDecoder.cs:518-521 | after n scheduled blocks with nothing appended, the queue is the original queue without its first n·2048 frames, in order, so its length drops by n·2048·channels |
| AudioQueue.AudibleRunContiguous | FFMPEGDecoderPlugin/Scripts/FFMPEGDecoder.cs:510-521 | the audible parts of any n consecutive clips are one contiguous run of the queue, starting after the first overlap region, with no gap and no repeat |
| Playback.StoppedSlots | FFMPEGDecoderPlugin/Scripts/FFMPEGDecoder.cs:614 | all sources stopped: every one of the n sources is Idle |
| Playback.Initial | FFMPEGDecoderPlugin/Scripts/FFMPEGDecoder.cs:239-248 | after the constructor and the synchronous start of initialisation, the state is Initializing, polling has begun and the invariant holds |
| Playback.SeekTarget | FFMPEGDecoderPlugin/Scripts/FFMPEGDecoder.cs:586-598 | the effective target is 0 or the request and never negative; it is the request iff the request is 0, or it is non-negative, no track is ready to replay, and it is within every enabled (scheduled) track's duration |
| Playback.AllChannelData | FFMPEGDecoderPlugin/Scripts/FFMPEGDecoder.cs:429-455 | outside all-channels mode: no data, time 0, 0 samples; otherwise the engine's time and frame count, with data present iff frames > 0, being the first `frames·channels` samples |
| Properties.SeekAcceptedStates | FFMPEGDecoderPlugin/Scripts/FFMPEGDecoder.cs:581 | a seek is taken exactly in Start, Pause, Buffering and Eof |
| Properties.SeekRefused | FFMPEGDecoderPlugin/Scripts/FFMPEGDecoder.cs:579-581 | a refused seek changes nothing |
| Properties.SeekEffect | FFMPEGDecoderPlugin/Scripts/FFMPEGDecoder.cs:581-603 | an accepted seek records the prior state, enters SeekFrame, stores the clamped target in hangTime and sends it to the engine as both seek and video time; the anchor and ready flags are unchanged |
| Properties.SeekFlushesAudio | FFMPEGDecoderPlugin/Scripts/FFMPEGDecoder.cs:605-615 | with scheduled audio, a seek empties the queue, resets both anchors to -1 and stops all four sources |
| Properties.SeekKeepsUnscheduledAudio | FFMPEGDecoderPlugin/Scripts/FFMPEGDecoder.cs:605 | without scheduled audio, a seek leaves the queue, anchors, output settings and sources alone |
| Properties.UnknownDurationSeeksToZero | FFMPEGDecoderPlugin/Scripts/FFMPEGDecoder.cs:587 | with video of unknown duration (-1), every non-negative target becomes 0 |
| Properties.ReadyTrackSeeksToZero | FFMPEGDecoderPlugin/Scripts/FFMPEGDecoder.cs:589 | once a track is ready to replay, every target becomes 0 |
| Properties.SeekResolvesAtTarget | FFMPEGDecoderPlugin/Scripts/FFMPEGDecoder.cs:173-213 | a seek, then a tick with seek-over, plays again iff not every enabled track was already ready to replay; then the reported position is the clamped target, and from Pause it is a muted preview that keeps the volume; otherwise, since the seek does not clear the ready flags, the same tick fires onVideoEnd once and ends in Eof (SeekFrame again with loop) |
| Properties.PauseResumeGuards | FFMPEGDecoderPlugin/Scripts/FFMPEGDecoder.cs:681-703 | setPause acts only in Start and yields Pause; setResume acts only in Pause and yields Start |
| Properties.PausedPositionFrozen | FFMPEGDecoderPlugin/Scripts/FFMPEGDecoder.cs:666-674 | while paused, the reported position is the position at the pause, at any later clock reading |
| Properties.PauseResumeKeepsPosition | FFMPEGDecoderPlugin/Scripts/FFMPEGDecoder.cs:681-703 | pause at t1 then resume at t2 gives `t2 - globalStartTime == t1 - old globalStartTime`, and the same reported position |
| Properties.StartDecodingFirstTick | FFMPEGDecoderPlugin/Scripts/FFMPEGDecoder.cs:335-361 | on a reachable Initialized decoder, the tick run inside startDecoding fires onVideoEnd iff the stream is audio-only in all-channels mode; otherwise playback begins at position 0, in Start if the buffer is full or at the end, in Buffering otherwise |
| Properties.PlayResumes | FFMPEGDecoderPlugin/Scripts/FFMPEGDecoder.cs:222-237 | Play on a paused decoder is setResume and ends in Start |
| Properties.PumpVideoPreview | FFMPEGDecoderPlugin/Scripts/FFMPEGDecoder.cs:142-149 | the preview branch of the tick is setPause, then clearing seekPreview, then unmute |
| Properties.AudioOnlyPreviewPersists | FFMPEGDecoderPlugin/Scripts/FFMPEGDecoder.cs:122-149 | without a video track, a preview after a seek from Pause never ends: the tick never pauses and the output stays muted |
| Properties.SeekOverPreviewMutes | FFMPEGDecoderPlugin/Scripts/FFMPEGDecoder.cs:174-182 | resolving a seek issued from Pause re-anchors, plays, raises seekPreview and then mutes |
| Properties.AdvanceResolvesSeek | FFMPEGDecoderPlugin/Scripts/FFMPEGDecoder.cs:173-185 | in SeekFrame with seek-over: Start, position == hangTime; preview and mute iff lastState was Pause; volume, queue and stream unchanged |
| Properties.AdvanceResolvesBuffering | FFMPEGDecoderPlugin/Scripts/FFMPEGDecoder.cs:187-195 | in Buffering with buffer-full or EOF: Start, position == hangTime, video and audio state unchanged |
| Properties.AdvanceWaits | FFMPEGDecoderPlugin/Scripts/FFMPEGDecoder.cs:173-195 | in SeekFrame without seek-over, or in Buffering without full/EOF, the switch changes nothing |
| Properties.SeekPreviewOnlyFromPause | FFMPEGDecoderPlugin/Scripts/FFMPEGDecoder.cs:178-181 | seekPreview is raised only by resolving a seek whose lastState was Pause |
| Properties.AdvancePlayingFrame | FFMPEGDecoderPlugin/Scripts/FFMPEGDecoder.cs:122-171 | the Start case leaves the clock anchor, stream, queue, session, loop flag, sources, swap index and end count unchanged |
| Properties.AdvancePlayingStates | FFMPEGDecoderPlugin/Scripts/FFMPEGDecoder.cs:122-171 | the Start case ends in Start, Pause (only via the preview, which clears it) or Buffering; it never raises seekPreview |
| Properties.AdvanceUnderrun | FFMPEGDecoderPlugin/Scripts/FFMPEGDecoder.cs:164-169 | buffer empty and not EOF in Start: Buffering with hangTime = `now - globalStartTime` |
| Properties.VideoReadyOnlyPastEnd | FFMPEGDecoderPlugin/Scripts/FFMPEGDecoder.cs:155-161 | a tick sets video ready iff it is playing video, the buffer is empty and the scaled position is at or past a known duration |
| Properties.UnderrunRecoveryContinuity | FFMPEGDecoderPlugin/Scripts/FFMPEGDecoder.cs:164-195 | an underrun tick at t1 and a buffer-full tick at t2 resume in Start at the position of t1 |
| Properties.EndOfStreamEffect | FFMPEGDecoderPlugin/Scripts/FFMPEGDecoder.cs:203-213 | no end condition: nothing changes. Otherwise onVideoEnd fires once and the flags clear; then Eof, or with loop a pending replay (SeekFrame at 0 from Eof, anchored at now) |
| Properties.AdvanceKeepsEndCount | FFMPEGDecoderPlugin/Scripts/FFMPEGDecoder.cs:120-201 | the state switch never fires onVideoEnd |
| Properties.TickFiresEndOnce | FFMPEGDecoderPlugin/Scripts/FFMPEGDecoder.cs:203-213 | a tick fires onVideoEnd at most once, and exactly when the pump runs and the end condition holds after the switch |
| Properties.EndFiresOncePerPass | FFMPEGDecoderPlugin/Scripts/FFMPEGDecoder.cs:203-213 | after a declared end (no loop), ticks change nothing and do not fire again; the one exception is an audio-only stream in all-channels mode, a mode no caller of this source can select, where every tick would fire |
| Properties.StopDecodingEffect | FFMPEGDecoderPlugin/Scripts/FFMPEGDecoder.cs:542-577 | no-op below Initializing; otherwise NotInitialized, decoderID -1, no enabled track, all-channels off, no ready flag |
| Properties.StopDecodingIdempotent | FFMPEGDecoderPlugin/Scripts/FFMPEGDecoder.cs:542-577 | stopping twice is stopping once |
| Properties.StopEmptiesQueue | FFMPEGDecoderPlugin/Scripts/FFMPEGDecoder.cs:398-402 | after stop no audio is left queued |
| Properties.MuteUnmute | FFMPEGDecoderPlugin/Scripts/FFMPEGDecoder.cs:718-728 | mute silences the sources and keeps the volume; unmute then plays at the kept volume again |
| Properties.SetVolumeEffect | FFMPEGDecoderPlugin/Scripts/FFMPEGDecoder.cs:705-711 | the stored volume is in [0,1], applied to the sources, and equal to an in-range request |
| Properties.PullAudioEffect | FFMPEGDecoderPlugin/Scripts/FFMPEGDecoder.cs:371-391 | the queue either gains the whole block at its end or is unchanged; it grows only for a positive time stamp different from the last, while the loop runs outside SeekFrame, and then always, recording the stamp |
| Properties.ScheduleEffect | FFMPEGDecoderPlugin/Scripts/FFMPEGDecoder.cs:497-521 | scheduling gives the current source the front block, starting no earlier than now, for one block time, offset by one overlap; other sources are unchanged, the index advances mod 4 and the played part is dropped |
| Properties.AudioStepSchedules | FFMPEGDecoderPlugin/Scripts/FFMPEGDecoder.cs:478-521 | with a full block and a free source, a scheduler pass anchors the progress time and schedules |
| Properties.AnchorProgressFrame | FFMPEGDecoderPlugin/Scripts/FFMPEGDecoder.cs:485-491 | the first block fixes the progress time one overlap past the first frame time and re-anchors the clock on it; later it is a no-op; it never touches the queue or the sources |
| Properties.AudioStepQueue | FFMPEGDecoderPlugin/Scripts/FFMPEGDecoder.cs:478-535 | a scheduler pass leaves the queue unchanged, drops exactly one played block, or clears it with audio ready |
| Properties.AudioStepPastEnd | FFMPEGDecoderPlugin/Scripts/FFMPEGDecoder.cs:525-535 | past the audio duration: audio ready, both anchors -1, queue empty |
| Properties.ScheduleRewindsLatePosition | FFMPEGDecoderPlugin/Scripts/FFMPEGDecoder.cs:499-508 | scheduling never moves the position forward; it moves it back iff the block is late, to the progress time |
| Properties.AnchorSetsPosition | FFMPEGDecoderPlugin/Scripts/FFMPEGDecoder.cs:486-490 | the first anchoring sets the position to the first time stamp plus one overlap, which is a step back iff playback has already passed that point |
| Properties.PositionStepsBack | FFMPEGDecoderPlugin/Scripts/FFMPEGDecoder.cs:486-508 | concrete steps back: a late block takes the position from 10 to 9, a first anchoring from 3 to 0.52 |
| Properties.ConsecutiveBlocksGapless | FFMPEGDecoderPlugin/Scripts/FFMPEGDecoder.cs:499-521 | two consecutive clips do not overlap in time, are back to back when the second is on time, and play one contiguous run of samples |
| Properties.InitialKeepsInv | FFMPEGDecoderPlugin/Scripts/FFMPEGDecoder.cs:239-248 | the initial decoder satisfies the invariant: four sources, index in [0,4), aligned queue empty unless audio runs, puller present once playing scheduled audio, volume in [0,1] |
| Properties.InitSuccessKeepsInv | FFMPEGDecoderPlugin/Scripts/FFMPEGDecoder.cs:258-294 | a successful initialisation keeps the invariant |
| Properties.PollInitKeepsInv | FFMPEGDecoderPlugin/Scripts/FFMPEGDecoder.cs:250-300 | every poll of initialisation keeps the invariant |
| Properties.StartDecodingKeepsInv | FFMPEGDecoderPlugin/Scripts/FFMPEGDecoder.cs:335-361 | startDecoding keeps the invariant |
| Properties.PlayKeepsInv | FFMPEGDecoderPlugin/Scripts/FFMPEGDecoder.cs:222-237 | Play keeps the invariant |
| Properties.PauseKeepsInv | FFMPEGDecoderPlugin/Scripts/FFMPEGDecoder.cs:681-691 | setPause keeps the invariant |
| Properties.ResumeKeepsInv | FFMPEGDecoderPlugin/Scripts/FFMPEGDecoder.cs:693-703 | setResume keeps the invariant |
| Properties.SeekKeepsInv | FFMPEGDecoderPlugin/Scripts/FFMPEGDecoder.cs:579-621 | setSeekTime keeps the invariant |
| Properties.ReplayKeepsInv | FFMPEGDecoderPlugin/Scripts/FFMPEGDecoder.cs:420-427 | replay keeps the invariant |
| Properties.StopKeepsInv | FFMPEGDecoderPlugin/Scripts/FFMPEGDecoder.cs:542-577 | stopDecoding keeps the invariant |
| Properties.SetVolumeKeepsInv | FFMPEGDecoderPlugin/Scripts/FFMPEGDecoder.cs:705-711 | setVolume keeps the invariant |
| Properties.MuteKeepsInv | FFMPEGDecoderPlugin/Scripts/FFMPEGDecoder.cs:718-723 | mute keeps the invariant |
| Properties.UnmuteKeepsInv | FFMPEGDecoderPlugin/Scripts/FFMPEGDecoder.cs:725-728 | unmute keeps the invariant |
| Properties.AdvanceKeepsInv | FFMPEGDecoderPlugin/Scripts/FFMPEGDecoder.cs:120-201 | the tick's state switch keeps the invariant |
| Properties.AdvanceKeepsRunning | FFMPEGDecoderPlugin/Scripts/FFMPEGDecoder.cs:120-201 | the state switch never leaves the active states |
| Properties.EndOfStreamKeepsInv | FFMPEGDecoderPlugin/Scripts/FFMPEGDecoder.cs:203-213 | the end-of-stream check keeps the invariant |
| Properties.TickKeepsInv | FFMPEGDecoderPlugin/Scripts/FFMPEGDecoder.cs:118-214 | a whole tick keeps the invariant |
| Properties.PullAudioKeepsInv | FFMPEGDecoderPlugin/Scripts/FFMPEGDecoder.cs:371-391 | a puller pass keeps the invariant, in particular frame alignment of the queue |
| Properties.AudioStepKeepsInv | FFMPEGDecoderPlugin/Scripts/FFMPEGDecoder.cs:478-535 | a scheduler pass keeps the invariant, including swapIndex in [0,4) and alignment |
| Decoder.FFMPEGDecoder.constructor | FFMPEGDecoderPlugin/Scripts/FFMPEGDecoder.cs:239-248 | the new object is `Playback.Initial`, with a fresh array of four stopped sources |
| Decoder.FFMPEGDecoder.SetLoop | FFMPEGDecoderPlugin/Scripts/FFMPEGDecoder.cs:37 | the host's write to `loop` changes that field only and keeps the invariant |
| Decoder.FFMPEGDecoder.StopSources | FFMPEGDecoderPlugin/Scripts/FFMPEGDecoder.cs:559-566 | after the loop over the sources, every one is Idle |
| Decoder.FFMPEGDecoder.PollInit | FFMPEGDecoderPlugin/Scripts/FFMPEGDecoder.cs:250-300 | the new state is `Playback.PollInit` of the old, including startDecoding's first tick when Play was registered; the invariant is kept |
| Decoder.FFMPEGDecoder.StartDecoding | FFMPEGDecoderPlugin/Scripts/FFMPEGDecoder.cs:335-361 | the new state is `Playback.StartDecoding` of the old: Buffering entered, one frame tick, flags cleared, audio loops started; the invariant is kept |
| Decoder.FFMPEGDecoder.FirstTick | FFMPEGDecoderPlugin/Scripts/FFMPEGDecoder.cs:185-213 | the tick run at line 349 computes `Playback.Tick` in Buffering, before the puller exists, keeping the invariant but for the puller |
| Decoder.FFMPEGDecoder.StartLoops | FFMPEGDecoderPlugin/Scripts/FFMPEGDecoder.cs:351-358 | the new state is `Playback.StartLoops` of the old: replay flags cleared; with scheduled audio, anchors and source index reset and the puller created on an empty queue |
| Decoder.FFMPEGDecoder.Play | FFMPEGDecoderPlugin/Scripts/FFMPEGDecoder.cs:222-237 | the new state is `Playback.Play` of the old, startDecoding's first tick included; the invariant is kept |
| Decoder.FFMPEGDecoder.SetPause | FFMPEGDecoderPlugin/Scripts/FFMPEGDecoder.cs:681-691 | the new state is `Playback.SetPause` of the old; the invariant is kept |
| Decoder.FFMPEGDecoder.SetResume | FFMPEGDecoderPlugin/Scripts/FFMPEGDecoder.cs:693-703 | the new state is `Playback.SetResume` of the old; the invariant is kept |
| Decoder.FFMPEGDecoder.SetSeekTime | FFMPEGDecoderPlugin/Scripts/FFMPEGDecoder.cs:579-621 | the new state is `Playback.SetSeekTime` of the old; the answer is whether the seek was accepted |
| Decoder.FFMPEGDecoder.Replay | FFMPEGDecoderPlugin/Scripts/FFMPEGDecoder.cs:420-427 | the new state is `Playback.Replay` of the old; the invariant is kept |
| Decoder.FFMPEGDecoder.StopDecoding | FFMPEGDecoderPlugin/Scripts/FFMPEGDecoder.cs:542-577 | the new state is the corrected `Playback.StopDecoding` of the old; the invariant is kept |
| Decoder.FFMPEGDecoder.SetVolume | FFMPEGDecoderPlugin/Scripts/FFMPEGDecoder.cs:705-711 | the new state is `Playback.SetVolume` of the old |
| Decoder.FFMPEGDecoder.Mute | FFMPEGDecoderPlugin/Scripts/FFMPEGDecoder.cs:718-723 | the new state is `Playback.Mute` of the old |
| Decoder.FFMPEGDecoder.Unmute | FFMPEGDecoderPlugin/Scripts/FFMPEGDecoder.cs:725-728 | the new state is `Playback.Unmute` of the old |
| Decoder.FFMPEGDecoder.UpdateDecoder | FFMPEGDecoderPlugin/Scripts/FFMPEGDecoder.cs:118-214 | the new state is `Playback.Tick` of the old (no change unless the pump runs); the invariant is kept |
| Decoder.FFMPEGDecoder.UpdateState | FFMPEGDecoderPlugin/Scripts/FFMPEGDecoder.cs:120-201 | the new state is `Playback.Advance` of the old |
| Decoder.FFMPEGDecoder.GrabFrame | FFMPEGDecoderPlugin/Scripts/FFMPEGDecoder.cs:123-161 | the new state is `Playback.PumpVideo` of the old |
| Decoder.FFMPEGDecoder.CheckEnd | FFMPEGDecoderPlugin/Scripts/FFMPEGDecoder.cs:203-213 | the new state is `Playback.EndOfStream` of the old |
| Decoder.FFMPEGDecoder.PullAudioData | FFMPEGDecoderPlugin/Scripts/FFMPEGDecoder.cs:371-393 | one puller pass: the new state is `Playback.PullAudio` of the old |
| Decoder.FFMPEGDecoder.AudioPlayStep | FFMPEGDecoderPlugin/Scripts/FFMPEGDecoder.cs:476-539 | one scheduler pass: the new state is `Playback.AudioStep` of the old |
| Decoder.FFMPEGDecoder.ScheduleBlock | FFMPEGDecoderPlugin/Scripts/FFMPEGDecoder.cs:497-521 | the new state, the written source included, is `Playback.Schedule` of the old |
| Decoder.FFMPEGDecoder.GetAllAudioChannelData | FFMPEGDecoderPlugin/Scripts/FFMPEGDecoder.cs:429-455 | the returned data, time and frame count are `Playback.AllChannelData` |
| Decoder.FFMPEGDecoder.GetVideoCurrentTime | FFMPEGDecoderPlugin/Scripts/FFMPEGDecoder.cs:666-674 | the result is `Playback.CurrentTime`: 0 before playback, hangTime while paused or seeking, `now - globalStartTime` otherwise |
| Decoder.FFMPEGDecoder.IsVideoEOF | FFMPEGDecoderPlugin/Scripts/FFMPEGDecoder.cs:629-632 | the result is true iff the state is Eof |
| Findings.StopDecodingAsWritten | FFMPEGDecoderPlugin/Scripts/FFMPEGDecoder.cs:542-577 | stopDecoding as written throws iff it is called at or above Initializing, with audio scheduled and no puller created |
| Findings.StopAsWrittenAgrees | FFMPEGDecoderPlugin/Scripts/FFMPEGDecoder.cs:553-558 | where the puller exists or audio is not scheduled, the code as written is the corrected stop |
| Findings.StopThrowsOnlyBeforePlay | FFMPEGDecoderPlugin/Scripts/FFMPEGDecoder.cs:352-358 | on reachable states the throw happens only between Initializing and Start, and leaves the session and the track flags in place |
| Findings.StopBeforePlayThrows | FFMPEGDecoderPlugin/Scripts/FFMPEGDecoder.cs:557 | a concrete stream with audio, initialised and stopped before Play: the code as written throws in Stop with session 7; the corrected stop reaches NotInitialized |

## Left out

- The native decode engine and its answers are parameters. Texture
  handling (`PrepareTexture`, `ReleaseTexture`, `UpdateVideoTexture`,
  `GetTexture`) and the frame data copy are not modelled. Only the
  new-frame flag is kept.
- Unity objects are not modelled: `AudioSource`, `AudioClip`,
  `GameObject`, the coroutine starter, `Dispose` and the source set-up in
  `initAudioSource`. An output source is modelled as what it has been given
  to play: `Idle`, or `Scheduled(samples, playTime, endTime, offset)`.
  Destroying a source at stop is modelled as stopping it (`Idle`). Per-source
  volume and pause are a single `outputVolume` and a single `paused` flag.
- Concurrency is not modelled: the background worker, `Thread.Sleep`, the
  lock, and the coroutine interleavings. Each pass of the puller loop and
  of the scheduler loop is one atomic method. Their `while` loops are
  driven by the caller, one pass per call.
- `Decoder.FFMPEGDecoder.AudioPlayStep`: the inner wait for a busy source
  or a pending seek (line 493) is collapsed. A pass that finds the source
  busy ends after the anchoring, and the next pass starts again from the
  state test. This loses what the source does when the wait ends in a state
  the pass would not enter. After the wait, lines 497-521 re-check only the
  queue length, not the state or the anchors. Two readings of the code,
  not executed, show the difference:
  - A seek during the wait sets `audioProgressTime` to -1 (line 613). Once
    the seek is over and the puller has refilled a block, the block is
    scheduled at `-1 + globalStartTime`. When that time is already past,
    the clock is re-anchored to `now + 1`, so the position reads -1 instead
    of the seek target. The model re-anchors on the first pulled time stamp instead.
  - `setPause` pauses the sources, and a paused source does not count as
    playing. That ends the wait, and a block is then scheduled and played
    while paused. The model schedules
    nothing outside Start.
- `Decoder.FFMPEGDecoder.PullAudioData`: `nativeFreeAudioData` and the
  pointer copy are not modelled. The samples arrive as a sequence of
  `frameLength·channels` values.
- The puller's local `lastTime` is the field `lastPulledTime`. The
  scheduler's local `swapIndex` is the field `output.swapIndex`. Both are
  reset when the loops start, in `startDecoding`.
- The overlap length `(int)(GetOverlapTime()·audioFrequency + 0.5)` and the
  block duration `2048 / audioFrequency / playbackRate` are given, in
  `StreamInfo` and as the `blockTime` parameter, not computed.
- Float and double rounding and the `(float)` casts are not modelled. Times
  are `real`.
- The source class has flat fields. The class here groups them into
  records (session, stream formats, clock, video side, audio queue with
  anchors, output settings) with the source's field names. Each record field
  is updated in place. Mostly there is one statement per source assignment,
  but some statements update several fields of a record at once. Examples
  are the session set-up in the constructor, and the scheduling of a block
  in `ScheduleBlock`, where the anchors, the source index and the queue are
  each one record update.
- Not modelled, as outside the playback controller:
  - `setStepForward` and `setStepBackward`, which are `setSeekTime` of
    `now - globalStartTime ± sec` (lines 634-648). That is the playing
    position ± sec, but not while paused or seeking, where the reported
    position is `hangTime`;
  - `setAudioEnable` and `setVideoEnable` (lines 759-769), which are an
    engine call and, only when enabling, a `setSeekTime` to the reported
    position `getVideoCurrentTime()`;
  - `isSeeking`, which depends on an engine query;
  - `getMetaData`, `getVideoResolution`, `getVideoWidth`, `getVideoHeight`,
    `getVolume` and `getDecoderState` (plain getters or string marshalling);
  - host writes to the public `playbackRate` field. The rate is part of
    the clock and keeps its initial value 1.
- The output sources' pause state is the single flag `output.paused`. A
  seek from Pause stops every source (line 614), which also ends their
  pause, but the flag stays set until the next resume.
- `video.newFrame` is set when a frame is grabbed and never cleared,
  because the texture upload that clears it (`UpdateVideoTexture`) is not
  modelled.
- Listener registration (`onInitComplete` with a single `startDecoding`
  listener) is the flag `startOnInit`. `onVideoEnd` subscribers are counted
  invocations.

- `Decoder.FFMPEGDecoder.UpdateDecoder`: the tick asks
  `nativeIsVideoBufferEmpty` twice in Start, once in the video part
  (line 157) and once in the underrun test (line 164). The model takes one
  answer, `bufferEmpty`, for both, so it does not cover the buffer changing
  between the two queries.
- `Playback.Initial`: takes all-channels mode as the parameter `allAudioCh`.
  No caller of this source can select that mode. The only constructor
  (line 105) calls `initDecoder` with `enableAllAudioCh` left at its default,
  false (line 216), and `initDecoder` is private. The parameter generalises
  the model. The statements about all-channels mode (`AllChannelData`, the
  all-channels cases of `Properties.EndFiresOncePerPass` and
  `Properties.StartDecodingFirstTick`) describe that generalisation, not
  behaviour this source can reach.
- `Decoder.FFMPEGDecoder.constructor`: takes the same `allAudioCh`
  parameter as `Playback.Initial`. The source's constructor always passes
  false.

## Findings

| source | as written | input that shows it | evidently intended | confidence | as-written member | corrected member |
|---|---|---|---|---|---|---|
| FFMPEGDecoderPlugin/Scripts/FFMPEGDecoder.cs:557 | `backgroundWorker.CancelAsync()` runs whenever audio is scheduled, but the worker is created only by a successful `startDecoding` (lines 352-358) | a stream with audio, not in all-channels mode, initialised and then stopped (or disposed) before Play: the null dereference throws, leaving the state Stop, the engine session alive and the track flags set | cancel the worker only if it exists, so that stop completes into NotInitialized from every state at or above Initializing | high; not executed | Findings.StopDecodingAsWritten, Findings.StopBeforePlayThrows | Playback.StopDecoding |
