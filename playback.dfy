/**
 The decoder's controller as values: `Player` is everything the controller
 keeps between calls, and each command, each frame tick and each step of the
 two audio loops is a function from the old `Player` to the new one. The
 class `Decoder.FFMPEGDecoder` updates its fields in place and proves each of
 its methods equal to the function of the same name here; the properties of
 the controller are lemmas about these functions.

 What the decode engine, the clock (`AudioSettings.dspTime`) and the output
 sources report is passed in as parameters: `now` is the clock reading, and
 each of the engine's answers is a parameter of its own. Calls the
 controller makes into the engine that matter for playback position are
 recorded in `videoTimeRequest` (nativeSetVideoTime) and `seekRequest`
 (nativeSetSeekTime).
 */
module Playback {
  import opened States
  import opened Timing
  import opened AudioQueue

  /** What one of the four output sources has been given to play. */
  datatype Clip =
    | Idle
    | Scheduled(samples: seq<real>, playTime: real, endTime: real, offset: real)

  /** What the decode engine reports when a session has been created. */
  datatype StreamInfo = StreamInfo(
    videoEnabled: bool,
    videoDuration: real,
    audioEnabled: bool,
    channels: nat,
    audioDuration: real,
    overlapLength: nat)   // OVERLAP_TIME * playbackRate * frequency, rounded

  /** What getAllAudioChannelData hands back: samples, their time stamp, frames per channel. */
  datatype ChannelData = ChannelData(data: seq<real>, present: bool, time: real, samplesPerChannel: int)

  /** The engine session and the initialisation coroutine. */
  datatype Session = Session(
    decoderId: int,
    initPolling: bool,          // the initialisation coroutine is still waiting for the engine
    startOnInit: bool,          // startDecoding is the onInitComplete listener
    workerStarted: bool)        // the audio puller (backgroundWorker) has been created

  /** The tracks of the open stream and their formats. */
  datatype Stream = Stream(
    videoEnabled: bool,
    audioEnabled: bool,
    allAudioCh: bool,           // raw all-channels access instead of internal scheduling
    videoTotalTime: real,
    audioTotalTime: real,
    channels: nat,
    overlapLength: nat)

  /** Time control: the position is `now - globalStartTime` while playing, `hangTime` while held. */
  datatype Clock = Clock(
    globalStartTime: real,
    hangTime: real,
    playbackRate: real)

  /** The video side of the frame tick. */
  datatype Video = Video(
    newFrame: bool,
    seekPreview: bool,
    videoReady: bool,           // isVideoReadyToReplay
    videoTimeRequest: real,     // last position passed to nativeSetVideoTime
    seekRequest: real,          // last position passed to nativeSetSeekTime
    videoEndCount: nat)         // how often onVideoEnd has been invoked

  /** The audio sample queue (audioDataBuff) and the scheduler's time anchors. */
  datatype Pipe = Pipe(
    queue: seq<real>,
    audioReady: bool,           // isAudioReadyToReplay
    audioProgressTime: real,
    firstAudioFrameTime: real,
    lastPulledTime: real)       // the puller's time stamp of the last accepted block

  /** How the SWAP_BUFFER_NUM output sources are played. */
  datatype Output = Output(
    volume: real,
    outputVolume: real,         // the volume the output sources currently play at
    paused: bool,
    swapIndex: nat)             // the source the next block goes to

  datatype Player = Player(
    state: DecoderState,
    lastState: DecoderState,
    loop: bool,
    session: Session,
    stream: Stream,
    clock: Clock,
    video: Video,
    pipe: Pipe,
    output: Output,
    slots: seq<Clip>)           // what each output source has been given to play

  // ---------------------------------------------------------------------
  // Derived notions

  /** Audio goes through the internal scheduler (not all-channels mode). */
  predicate AudioScheduled(d: Player)
  {
    d.stream.audioEnabled && !d.stream.allAudioCh
  }

  /**
   The video coroutine (and so the frame tick) runs from a successful start
   until stop, which is exactly while the state is at least Start.
   */
  predicate PumpRunning(d: Player)
  {
    d.state >= Start
  }

  /** The audio puller and scheduler run while the pump runs and audio is scheduled. */
  predicate AudioRunning(d: Player)
  {
    PumpRunning(d) && AudioScheduled(d)
  }

  /** GetOverlapTime: the overlap interval scaled by the playback rate. */
  function OverlapDuration(d: Player): real
  {
    OverlapTime * d.clock.playbackRate
  }

  /** Samples in one scheduled block for this stream. */
  function BlockLength(d: Player): nat
  {
    DataLength(d.stream.overlapLength, d.stream.channels)
  }

  /** The invariant every reachable Player keeps. */
  ghost predicate Inv(d: Player)
  {
    && |d.slots| == SwapBufferNum
    && d.output.swapIndex < SwapBufferNum
    && Aligned(|d.pipe.queue|, d.stream.channels)
    // no queued audio unless the audio loops run
    && (d.pipe.queue == [] || (d.state >= Start && d.stream.audioEnabled && !d.stream.allAudioCh))
    && (d.session.initPolling ==> d.state < Initialized)
    // the replay flags are raised only once playback has begun
    && (d.state < Start ==> !d.video.videoReady && !d.pipe.audioReady)
    // the audio puller exists once playback with scheduled audio has begun
    && (d.state >= Start && d.stream.audioEnabled && !d.stream.allAudioCh ==> d.session.workerStarted)
    && 0.0 <= d.output.volume <= 1.0
  }

  /**
   Inside startDecoding, between entering Buffering and creating the puller:
   the invariant, except that the puller may not exist yet, with both replay
   flags clear.
   */
  ghost predicate Launching(d: Player)
  {
    && Inv(d.(session := d.session.(workerStarted := true)))
    && !d.video.videoReady && !d.pipe.audioReady
  }

  /** Every output source with nothing scheduled. */
  function StoppedSlots(n: nat): (s: seq<Clip>)
    ensures |s| == n
    ensures forall i :: 0 <= i < n ==> s[i] == Idle
  {
    seq(n, _ => Idle)
  }

  // ---------------------------------------------------------------------
  // Construction and initialisation

  /**
   The constructor followed by the synchronous prefix of the initialisation
   coroutine: the state is Initializing and the engine has handed out `id`.
   */
  function Initial(id: int, allAudioCh: bool): (d: Player)
    ensures Inv(d) && d.state == Initializing && d.session.initPolling
  {
    Player(
      state := Initializing, lastState := NotInitialized, loop := false,
      session := Session(decoderId := id, initPolling := true, startOnInit := false, workerStarted := false),
      stream := Stream(videoEnabled := false, audioEnabled := false, allAudioCh := allAudioCh,
                       videoTotalTime := 0.0, audioTotalTime := 0.0, channels := 0, overlapLength := 0),
      clock := Clock(globalStartTime := 0.0, hangTime := -1.0, playbackRate := 1.0),
      video := Video(newFrame := false, seekPreview := false, videoReady := false,
                     videoTimeRequest := 0.0, seekRequest := 0.0, videoEndCount := 0),
      pipe := Pipe(queue := [], audioReady := false, audioProgressTime := -1.0,
                   firstAudioFrameTime := -1.0, lastPulledTime := -1.0),
      output := Output(volume := 1.0, outputVolume := 1.0, paused := false, swapIndex := 0),
      slots := StoppedSlots(SwapBufferNum))
  }

  /** The stream formats stored when the engine reports a ready session. */
  function Opened(s: Stream, info: StreamInfo): Stream
  {
    var a := info.audioEnabled;
    s.(videoEnabled := info.videoEnabled,
       videoTotalTime := if info.videoEnabled then KnownDuration(info.videoDuration) else s.videoTotalTime,
       audioEnabled := a,
       channels := if a then info.channels else s.channels,
       audioTotalTime := if a then KnownDuration(info.audioDuration) else s.audioTotalTime,
       overlapLength := if a && !s.allAudioCh then info.overlapLength else s.overlapLength)
  }

  /**
   A ready session: the track formats are stored, the output sources take
   the volume (when audio is scheduled) and the state becomes Initialized.
   */
  function InitSuccess(d: Player, info: StreamInfo): Player
  {
    d.(session := d.session.(initPolling := false),
       stream := Opened(d.stream, info),
       output := if info.audioEnabled && !d.stream.allAudioCh then d.output.(outputVolume := d.output.volume)
                 else d.output,
       state := Initialized)
  }

  /**
   One poll of the initialisation coroutine: `result` is the engine's session
   state (1 ready, -1 failed, anything else pending). On success the
   onInitComplete listener (startDecoding, if Play registered it) runs, with
   the engine's answers `accepted`, `bufferFull` and `eof`.
   */
  function PollInit(d: Player, result: int, info: StreamInfo, now: real, accepted: bool,
                    bufferFull: bool, eof: bool): Player
  {
    if !d.session.initPolling || (result != 1 && result != -1) then d
    else if result == 1 then
      if d.session.startOnInit then StartDecoding(InitSuccess(d, info), now, accepted, bufferFull, eof) else InitSuccess(d, info)
    else
      d.(session := d.session.(initPolling := false), state := InitFail)
  }

  // ---------------------------------------------------------------------
  // Commands

  /**
   startDecoding: only from Initialized, and only if the engine accepts.
   Playback enters Buffering with the clock anchored at `now`. Starting the
   video coroutine runs it up to its first yield, that is one frame tick in
   Buffering (which asks only nativeIsVideoBufferFull, `bufferFull`, and
   nativeIsEOF, `eof`, and closes with the end check), before the replay
   flags are cleared. With scheduled audio the scheduler's prologue then
   resets its anchors and source index (its first pass finds no queue yet
   and only yields), and the puller is created and starts on an empty queue.
   */
  function StartDecoding(d: Player, now: real, accepted: bool, bufferFull: bool, eof: bool): Player
  {
    if d.state != Initialized || !accepted then d
    else
      var b := d.(state := Buffering, clock := d.clock.(globalStartTime := now, hangTime := 0.0));
      StartLoops(Tick(b, now, false, false, false, bufferFull, eof, false))
  }

  /**
   The rest of startDecoding after the first frame tick: the replay flags
   are cleared and, with scheduled audio, the scheduler's prologue and the
   puller's creation.
   */
  function StartLoops(t: Player): Player
  {
    t.(session := if AudioScheduled(t) then t.session.(workerStarted := true) else t.session,
       video := t.video.(videoReady := false),
       pipe := if AudioScheduled(t) then Pipe([], false, -1.0, t.pipe.firstAudioFrameTime, -1.0)
               else t.pipe.(audioReady := false),
       output := if AudioScheduled(t) then t.output.(swapIndex := 0) else t.output)
  }

  /** Play: start, register the start for when initialisation completes, or resume. */
  function Play(d: Player, now: real, accepted: bool, bufferFull: bool, eof: bool): Player
  {
    if d.state == Initialized then StartDecoding(d, now, accepted, bufferFull, eof)
    else if d.state == Initializing then d.(session := d.session.(startOnInit := true))
    else SetResume(d, now)
  }

  /** setPause: only while playing; captures the position in hangTime. */
  function SetPause(d: Player, now: real): Player
  {
    if d.state != Start then d
    else d.(clock := d.clock.(hangTime := now - d.clock.globalStartTime), state := Pause,
            output := if AudioScheduled(d) then d.output.(paused := true) else d.output)
  }

  /** setResume: only while paused; re-anchors the clock on hangTime. */
  function SetResume(d: Player, now: real): Player
  {
    if d.state != Pause then d
    else d.(clock := d.clock.(globalStartTime := now - d.clock.hangTime), state := Start,
            output := if AudioScheduled(d) then d.output.(paused := false) else d.output)
  }

  /** setSeekTime accepts a request once playback has begun, unless a seek is already pending. */
  predicate SeekAccepted(d: Player)
  {
    d.state != SeekFrame && d.state >= Start
  }

  /**
   The position a seek actually goes to: the requested time, unless it is
   negative, beyond an enabled track's total time, or a track is already
   waiting to replay, in which case 0.
   */
  function SeekTarget(d: Player, seekTime: real): (t: real)
    ensures t == 0.0 || t == seekTime
    ensures t >= 0.0
    ensures t == seekTime <==>
      seekTime == 0.0 ||
      (&& seekTime >= 0.0
       && !d.video.videoReady && !d.pipe.audioReady
       && (d.stream.videoEnabled ==> seekTime <= d.stream.videoTotalTime)
       && (AudioScheduled(d) ==> seekTime <= d.stream.audioTotalTime))
  {
    if (d.stream.videoEnabled && seekTime > d.stream.videoTotalTime)
       || (d.stream.audioEnabled && !d.stream.allAudioCh && seekTime > d.stream.audioTotalTime)
       || d.video.videoReady || d.pipe.audioReady
       || seekTime < 0.0
    then 0.0
    else seekTime
  }

  /**
   setSeekTime: on acceptance the prior state is kept in lastState, the
   state becomes SeekFrame and the engine is told the clamped target; the
   audio pipeline is emptied and its output sources stopped.
   */
  function SetSeekTime(d: Player, seekTime: real): Player
  {
    if !SeekAccepted(d) then d
    else
      var target := SeekTarget(d, seekTime);
      d.(lastState := d.state, state := SeekFrame,
         clock := d.clock.(hangTime := target),
         video := d.video.(seekRequest := target, videoTimeRequest := target),
         pipe := if AudioScheduled(d) then d.pipe.(queue := [], audioProgressTime := -1.0, firstAudioFrameTime := -1.0)
                 else d.pipe,
         slots := if AudioScheduled(d) then StoppedSlots(|d.slots|) else d.slots)
  }

  /** replay: a seek to 0 that also re-anchors the clock and clears the replay flags. */
  function Replay(d: Player, now: real): Player
  {
    if !SeekAccepted(d) then d
    else
      var s := SetSeekTime(d, 0.0);
      s.(clock := s.clock.(globalStartTime := now),
         video := s.video.(videoReady := false),
         pipe := s.pipe.(audioReady := false))
  }

  /**
   stopDecoding: from any state at or above Initializing, tear the session
   down: output sources destroyed, audio queue released, engine session
   scheduled for destruction, all track flags cleared. This is the intended
   behaviour; `Findings.StopDecodingAsWritten` is the code as written, which
   throws when audio is scheduled but the puller was never created.
   */
  function StopDecoding(d: Player): Player
  {
    if d.state < Initializing then d
    else
      d.(session := d.session.(decoderId := -1), state := NotInitialized,
         stream := d.stream.(videoEnabled := false, audioEnabled := false, allAudioCh := false),
         video := d.video.(videoReady := false),
         pipe := if AudioScheduled(d) then d.pipe.(queue := [], audioReady := false) else d.pipe.(audioReady := false),
         slots := if AudioScheduled(d) then StoppedSlots(|d.slots|) else d.slots)
  }

  /** setVolume: the clamped volume is stored and applied to the output sources. */
  function SetVolume(d: Player, v: real): Player
  {
    d.(output := d.output.(volume := ClampVolume(v), outputVolume := ClampVolume(v)))
  }

  /** mute: silence the output sources but remember the volume. */
  function Mute(d: Player): Player
  {
    d.(output := d.output.(outputVolume := ClampVolume(0.0)))
  }

  /** unmute: apply the remembered volume again. */
  function Unmute(d: Player): Player
  {
    SetVolume(d, d.output.volume)
  }

  // ---------------------------------------------------------------------
  // Queries

  /** getVideoCurrentTime. */
  function CurrentTime(d: Player, now: real): real
  {
    if d.state == Initialized || d.state == Initializing || d.state == NotInitialized then 0.0
    else if d.state == Pause || d.state == SeekFrame then d.clock.hangTime
    else now - d.clock.globalStartTime
  }

  /** isVideoEOF. */
  predicate IsVideoEof(d: Player)
  {
    d.state == Eof
  }

  /**
   getAllAudioChannelData: outside all-channels mode nothing is returned;
   otherwise the engine's block (lengthPerChannel frames of `buffer`) is copied.
   */
  function AllChannelData(d: Player, nativeTime: real, lengthPerChannel: int, buffer: seq<real>): (r: ChannelData)
    requires lengthPerChannel > 0 ==> lengthPerChannel * d.stream.channels <= |buffer|
    ensures !d.stream.allAudioCh ==> r == ChannelData([], false, 0.0, 0)
    ensures d.stream.allAudioCh ==> r.time == nativeTime && r.samplesPerChannel == lengthPerChannel
    ensures d.stream.allAudioCh ==> (r.present <==> lengthPerChannel > 0)
    ensures r.present ==> r.data == buffer[..lengthPerChannel * d.stream.channels]
  {
    if !d.stream.allAudioCh then ChannelData([], false, 0.0, 0)
    else if lengthPerChannel > 0 then
      ChannelData(buffer[..lengthPerChannel * d.stream.channels], true, nativeTime, lengthPerChannel)
    else ChannelData([], false, nativeTime, lengthPerChannel)
  }

  // ---------------------------------------------------------------------
  // The frame tick (UpdateDecoder)

  /** The rate-scaled position handed to the engine by the frame tick. */
  function VideoClock(d: Player, now: real): real
  {
    (now - d.clock.globalStartTime) * d.clock.playbackRate
  }

  /** The frame tick's test for "the video has not reached its known end". */
  predicate BeforeVideoEnd(d: Player, now: real)
  {
    VideoClock(d, now) < d.stream.videoTotalTime || d.stream.videoTotalTime == UnknownDuration
  }

  /**
   The video part of a tick in Start. `frameReady` is nativeGrabVideoFrame's
   answer, `contentReady` nativeIsContentReady's, `bufferEmpty`
   nativeIsVideoBufferEmpty's. A grabbed frame is marked new. Before the end,
   the engine is told the position, except on the first ready content after
   a seek from Pause, which pauses again and restores the volume (setPause,
   then unmute: the lemma `Properties.PumpVideoPreview` states that this
   branch is exactly that composition). Past the end the engine is told the
   position while it still has frames, and otherwise the video track is
   ready to replay.
   */
  function PumpVideo(d: Player, now: real, frameReady: bool, contentReady: bool, bufferEmpty: bool): Player
  {
    var shown := frameReady || d.video.newFrame;
    if BeforeVideoEnd(d, now) && d.video.seekPreview && contentReady then
      d.(state := Pause,
         clock := d.clock.(hangTime := now - d.clock.globalStartTime),
         video := d.video.(newFrame := shown, seekPreview := false),
         output := d.output.(paused := if AudioScheduled(d) then true else d.output.paused,
                             volume := ClampVolume(d.output.volume),
                             outputVolume := ClampVolume(d.output.volume)))
    else if BeforeVideoEnd(d, now) || !bufferEmpty then
      d.(video := d.video.(newFrame := shown, videoTimeRequest := VideoClock(d, now)))
    else d.(video := d.video.(newFrame := shown, videoReady := true))
  }

  /** The Start case of the state switch: the video part, then the underrun test. */
  function AdvancePlaying(d: Player, now: real, frameReady: bool, contentReady: bool, bufferEmpty: bool, eof: bool): Player
  {
    var d1 := if d.stream.videoEnabled then PumpVideo(d, now, frameReady, contentReady, bufferEmpty) else d;
    if bufferEmpty && !eof then d1.(state := Buffering, clock := d1.clock.(hangTime := now - d1.clock.globalStartTime))
    else d1
  }

  /**
   The SeekFrame case once the engine reports the seek over: playing again
   from hangTime; after a seek from Pause the preview flag is raised and the
   output muted (`Properties.SeekOverPreviewMutes`).
   */
  function SeekOver(d: Player, now: real): Player
  {
    var d1 := d.(clock := d.clock.(globalStartTime := now - d.clock.hangTime), state := Start);
    if d.lastState == Pause then
      d1.(video := d1.video.(seekPreview := true), output := d1.output.(outputVolume := ClampVolume(0.0)))
    else d1
  }

  /**
   The state switch of a tick; the engine's answers are nativeGrabVideoFrame,
   nativeIsContentReady, nativeIsVideoBufferEmpty, nativeIsVideoBufferFull,
   nativeIsEOF and nativeIsSeekOver.
   */
  function Advance(d: Player, now: real, frameReady: bool, contentReady: bool, bufferEmpty: bool,
                   bufferFull: bool, eof: bool, seekOver: bool): Player
  {
    if d.state == Start then AdvancePlaying(d, now, frameReady, contentReady, bufferEmpty, eof)
    else if d.state == SeekFrame && seekOver then SeekOver(d, now)
    else if d.state == Buffering && (bufferFull || eof) then
      d.(state := Start, clock := d.clock.(globalStartTime := now - d.clock.hangTime))
    else d
  }

  /** Every enabled track is ready to replay (audio is exempt in all-channels mode). */
  predicate EndReached(d: Player)
  {
    && (d.stream.videoEnabled || d.stream.audioEnabled)
    && (!d.stream.videoEnabled || d.video.videoReady)
    && (!d.stream.audioEnabled || d.stream.allAudioCh || d.pipe.audioReady)
  }

  /** The end-of-stream check that closes every tick. */
  function EndOfStream(d: Player, now: real): Player
  {
    if !EndReached(d) then d
    else
      var d1 := d.(state := Eof,
                   video := d.video.(videoReady := false, videoEndCount := d.video.videoEndCount + 1),
                   pipe := d.pipe.(audioReady := false));
      if d.loop then Replay(d1, now) else d1
  }

  /** UpdateDecoder, as run once per frame by the video coroutine. */
  function Tick(d: Player, now: real, frameReady: bool, contentReady: bool, bufferEmpty: bool,
                bufferFull: bool, eof: bool, seekOver: bool): Player
  {
    if !PumpRunning(d) then d
    else EndOfStream(Advance(d, now, frameReady, contentReady, bufferEmpty, bufferFull, eof, seekOver), now)
  }

  // ---------------------------------------------------------------------
  // The audio loops

  /**
   One pass of the puller loop: a block stamped `time` with `frameLength`
   frames (`samples` holds its frameLength * channels values) is appended
   unless the time stamp is not positive or repeats the last accepted one.
   Nothing is pulled while a seek is pending.
   */
  function PullAudio(d: Player, time: real, frameLength: nat, samples: seq<real>): Player
    requires |samples| == frameLength * d.stream.channels
  {
    if !AudioRunning(d) || d.state == SeekFrame then d
    else if 0.0 < time && d.pipe.lastPulledTime != time && frameLength != 0 then
      d.(pipe := d.pipe.(
           firstAudioFrameTime := if d.pipe.firstAudioFrameTime == -1.0 then time else d.pipe.firstAudioFrameTime,
           lastPulledTime := time,
           queue := d.pipe.queue + samples))
    else d
  }

  /**
   The first block fixes the progress time one overlap interval past the
   first pulled time stamp and re-anchors the clock on it.
   */
  function AnchorProgress(d: Player, now: real): Player
  {
    if d.pipe.audioProgressTime == -1.0 then
      var p := d.pipe.firstAudioFrameTime + OverlapDuration(d);
      d.(pipe := d.pipe.(audioProgressTime := p), clock := d.clock.(globalStartTime := now - p))
    else d
  }

  /**
   The schedule decision: hand the front block to the current source, at
   the progress time, or from `now` (re-anchoring the clock) when that is
   already past.
   */
  function Schedule(d: Player, now: real, blockTime: real): Player
    requires |d.pipe.queue| >= BlockLength(d)
    requires d.output.swapIndex < |d.slots|
  {
    var p := d.pipe.audioProgressTime;
    var anchor := if p + d.clock.globalStartTime <= now then now - p else d.clock.globalStartTime;
    var clip := Scheduled(Block(d.pipe.queue, d.stream.overlapLength, d.stream.channels),
                          p + anchor, p + anchor + blockTime, OverlapDuration(d));
    d.(clock := d.clock.(globalStartTime := anchor),
       slots := d.slots[d.output.swapIndex := clip],
       output := d.output.(swapIndex := (d.output.swapIndex + 1) % SwapBufferNum),
       pipe := d.pipe.(audioProgressTime := p + blockTime,
                       queue := Consume(d.pipe.queue, d.stream.overlapLength, d.stream.channels)))
  }

  /** Past the audio duration: ready to replay, anchors forgotten, queue dropped. */
  function AudioEnd(d: Player): Player
  {
    d.(pipe := d.pipe.(audioReady := true, audioProgressTime := -1.0, firstAudioFrameTime := -1.0, queue := []))
  }

  /** The scheduler's test for "the audio has not reached its known end" (unscaled by the rate). */
  predicate BeforeAudioEnd(d: Player, now: real)
  {
    now - d.clock.globalStartTime < d.stream.audioTotalTime || d.stream.audioTotalTime == UnknownDuration
  }

  /**
   One pass of the scheduler loop. `slotBusy` is whether the current output
   source is still playing (the loop then waits, after anchoring the
   progress time); `blockTime` is the duration of FrameSize frames at the
   current rate.
   */
  function AudioStep(d: Player, now: real, slotBusy: bool, blockTime: real): Player
    requires Inv(d)
  {
    if !AudioRunning(d) || d.state != Start then d
    else if !BeforeAudioEnd(d, now) then AudioEnd(d)
    else if |d.pipe.queue| < BlockLength(d) then d
    else if slotBusy then AnchorProgress(d, now)
    else Schedule(AnchorProgress(d, now), now, blockTime)
  }
}
