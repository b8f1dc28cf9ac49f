/**
 What the controller promises, proved about the functions of `Playback`.
 */
module Properties {
  import opened States
  import opened Timing
  import opened AudioQueue
  import opened Playback

  // ---------------------------------------------------------------------
  // Seeking

  /** The states in which a seek request is taken. */
  lemma SeekAcceptedStates(d: Player)
    ensures SeekAccepted(d) <==> d.state == Start || d.state == Pause || d.state == Buffering || d.state == Eof
  {
  }

  /** A refused seek changes nothing. */
  lemma SeekRefused(d: Player, seekTime: real)
    requires !SeekAccepted(d)
    ensures SetSeekTime(d, seekTime) == d
  {
  }

  /**
   An accepted seek records the prior state, enters SeekFrame, stores the
   clamped target in hangTime and passes it to the engine as both the seek
   and the video position; the clock anchor and the replay flags stay.
   */
  lemma SeekEffect(d: Player, seekTime: real)
    requires SeekAccepted(d)
    ensures var r := SetSeekTime(d, seekTime);
      && r.state == SeekFrame && r.lastState == d.state
      && r.clock.hangTime == SeekTarget(d, seekTime)
      && r.video.seekRequest == r.clock.hangTime && r.video.videoTimeRequest == r.clock.hangTime
      && r.clock.globalStartTime == d.clock.globalStartTime
      && r.video.videoReady == d.video.videoReady && r.pipe.audioReady == d.pipe.audioReady
  {
  }

  /** With scheduled audio an accepted seek empties the queue and stops every output source. */
  lemma SeekFlushesAudio(d: Player, seekTime: real)
    requires SeekAccepted(d) && AudioScheduled(d)
    ensures var r := SetSeekTime(d, seekTime);
      && r.pipe.queue == [] && r.pipe.audioProgressTime == -1.0 && r.pipe.firstAudioFrameTime == -1.0
      && |r.slots| == |d.slots|
      && (forall i :: 0 <= i < |r.slots| ==> r.slots[i] == Idle)
  {
  }

  /** Without scheduled audio a seek leaves the audio pipeline alone. */
  lemma SeekKeepsUnscheduledAudio(d: Player, seekTime: real)
    requires !AudioScheduled(d)
    ensures SetSeekTime(d, seekTime).pipe == d.pipe
    ensures SetSeekTime(d, seekTime).output == d.output
    ensures SetSeekTime(d, seekTime).slots == d.slots
  {
  }

  /** With video of unknown duration (the -1 sentinel), every non-negative target seeks to 0. */
  lemma UnknownDurationSeeksToZero(d: Player, seekTime: real)
    requires d.stream.videoEnabled && d.stream.videoTotalTime == UnknownDuration
    requires seekTime >= 0.0
    ensures SeekTarget(d, seekTime) == 0.0
  {
  }

  /** Once a track is waiting to replay, any seek restarts from 0. */
  lemma ReadyTrackSeeksToZero(d: Player, seekTime: real)
    requires d.video.videoReady || d.pipe.audioReady
    ensures SeekTarget(d, seekTime) == 0.0
  {
  }

  /**
   Seek round trip: an accepted seek, resolved by the next tick on which
   the engine reports the seek over, resumes playing at the clamped target.
   A seek issued while paused resolves into a muted preview. The seek does
   not clear the replay flags, so when every enabled track was already
   ready to replay, the same tick declares the end instead.
   */
  lemma SeekResolvesAtTarget(d: Player, seekTime: real, now: real,
                             frameReady: bool, contentReady: bool, bufferEmpty: bool, bufferFull: bool, eof: bool)
    requires SeekAccepted(d)
    ensures var r := Tick(SetSeekTime(d, seekTime), now, frameReady, contentReady, bufferEmpty, bufferFull, eof, true);
      && (r.state == Start <==> !EndReached(d))
      && (!EndReached(d) ==>
            && CurrentTime(r, now) == SeekTarget(d, seekTime)
            && r.video.videoEndCount == d.video.videoEndCount
            && (d.state == Pause ==> r.video.seekPreview && r.output.outputVolume == 0.0 && r.output.volume == d.output.volume)
            && (d.state != Pause ==> r.video.seekPreview == d.video.seekPreview))
      && (EndReached(d) ==>
            && r.video.videoEndCount == d.video.videoEndCount + 1
            && r.state == (if d.loop then SeekFrame else Eof))
  {
    var s := SetSeekTime(d, seekTime);
    SeekEffect(d, seekTime);
    var a := Advance(s, now, frameReady, contentReady, bufferEmpty, bufferFull, eof, true);
    AdvanceResolvesSeek(s, now, frameReady, contentReady, bufferEmpty, bufferFull, eof);
    assert EndReached(a) <==> EndReached(d);
    EndOfStreamEffect(a, now);
  }

  // ---------------------------------------------------------------------
  // Pause and resume

  /** setPause acts only while playing, setResume only while paused. */
  lemma PauseResumeGuards(d: Player, now: real)
    ensures d.state != Start ==> SetPause(d, now) == d
    ensures d.state != Pause ==> SetResume(d, now) == d
    ensures d.state == Start ==> SetPause(d, now).state == Pause
    ensures d.state == Pause ==> SetResume(d, now).state == Start
  {
  }

  /** While paused the reported position is the one captured at the pause, whatever the clock says. */
  lemma PausedPositionFrozen(d: Player, t1: real, t: real)
    requires d.state == Start
    ensures CurrentTime(SetPause(d, t1), t) == CurrentTime(d, t1)
  {
  }

  /**
   Pause at t1 and resume at t2 leave the elapsed time `now - globalStartTime`
   at t2 equal to its value at t1: the position continues where it stopped.
   */
  lemma PauseResumeKeepsPosition(d: Player, t1: real, t2: real)
    requires d.state == Start
    ensures var r := SetResume(SetPause(d, t1), t2);
      && r.state == Start
      && t2 - r.clock.globalStartTime == t1 - d.clock.globalStartTime
      && CurrentTime(r, t2) == CurrentTime(d, t1)
  {
  }

  /**
   The frame tick that startDecoding runs before returning. On a reachable
   Initialized decoder it fires onVideoEnd exactly for an audio-only stream
   in all-channels mode; otherwise playback begins at position 0, already in
   Start when the engine reports a full buffer or the end of the stream, and
   in Buffering otherwise.
   */
  lemma StartDecodingFirstTick(d: Player, now: real, bufferFull: bool, eof: bool)
    requires Inv(d) && d.state == Initialized
    ensures var r := StartDecoding(d, now, true, bufferFull, eof);
      && ((r.video.videoEndCount == d.video.videoEndCount + 1) <==>
            (!d.stream.videoEnabled && d.stream.audioEnabled && d.stream.allAudioCh))
      && (!(!d.stream.videoEnabled && d.stream.audioEnabled && d.stream.allAudioCh) ==>
            && r.video.videoEndCount == d.video.videoEndCount
            && r.state == (if bufferFull || eof then Start else Buffering)
            && r.clock.globalStartTime == now
            && CurrentTime(r, now) == 0.0)
  {
    var b := d.(state := Buffering, clock := d.clock.(globalStartTime := now, hangTime := 0.0));
    var a := Advance(b, now, false, false, false, bufferFull, eof, false);
    EndOfStreamEffect(a, now);
  }

  /** Play on a paused decoder is resume. */
  lemma PlayResumes(d: Player, now: real, accepted: bool, bufferFull: bool, eof: bool)
    requires d.state == Pause
    ensures Play(d, now, accepted, bufferFull, eof) == SetResume(d, now)
    ensures Play(d, now, accepted, bufferFull, eof).state == Start
  {
  }

  // ---------------------------------------------------------------------
  // The frame tick

  /**
   The first ready content after a seek from Pause: the video part of the
   tick is the source's composition of setPause, clearing the preview flag
   and unmute.
   */
  lemma PumpVideoPreview(d: Player, now: real, frameReady: bool, bufferEmpty: bool)
    requires d.state == Start && d.video.seekPreview && BeforeVideoEnd(d, now)
    ensures var d1 := d.(video := d.video.(newFrame := frameReady || d.video.newFrame));
      var p := SetPause(d1, now);
      PumpVideo(d, now, frameReady, true, bufferEmpty) == Unmute(p.(video := p.video.(seekPreview := false)))
  {
  }

  /** A seek issued from Pause resolves into the preview: flag raised, then mute. */
  lemma SeekOverPreviewMutes(d: Player, now: real)
    requires d.lastState == Pause
    ensures var d1 := d.(clock := d.clock.(globalStartTime := now - d.clock.hangTime), state := Start);
      SeekOver(d, now) == Mute(d1.(video := d1.video.(seekPreview := true)))
  {
  }

  /**
   The preview is ended only by the video part of the tick. Without a video
   track, a playing decoder in preview never pauses again and its output
   stays at the muted volume, whatever the engine answers.
   */
  lemma AudioOnlyPreviewPersists(d: Player, now: real, frameReady: bool, contentReady: bool,
                                 bufferEmpty: bool, bufferFull: bool, eof: bool, seekOver: bool)
    requires d.state == Start && !d.stream.videoEnabled && d.video.seekPreview
    ensures var r := Tick(d, now, frameReady, contentReady, bufferEmpty, bufferFull, eof, seekOver);
      && r.state != Pause
      && r.video.seekPreview
      && r.output.outputVolume == d.output.outputVolume
  {
    var a := Advance(d, now, frameReady, contentReady, bufferEmpty, bufferFull, eof, seekOver);
    EndOfStreamEffect(a, now);
  }

  /**
   A pending seek resolves when the engine reports it over: playing again,
   with the clock anchored so that the position is hangTime. The preview
   flag is raised (and the output muted) only if the seek came from Pause.
   */
  lemma AdvanceResolvesSeek(d: Player, now: real, frameReady: bool, contentReady: bool,
                            bufferEmpty: bool, bufferFull: bool, eof: bool)
    requires d.state == SeekFrame
    ensures var r := Advance(d, now, frameReady, contentReady, bufferEmpty, bufferFull, eof, true);
      && r.state == Start
      && CurrentTime(r, now) == d.clock.hangTime
      && (d.lastState == Pause ==> r.video.seekPreview && r.output.outputVolume == 0.0)
      && (d.lastState != Pause ==> r.video == d.video && r.output == d.output)
      && r.output.volume == d.output.volume
      && r.video.videoReady == d.video.videoReady && r.pipe == d.pipe && r.stream == d.stream
  {
  }

  /** Buffering ends when the engine's buffer is full or the stream is at its end. */
  lemma AdvanceResolvesBuffering(d: Player, now: real, frameReady: bool, contentReady: bool,
                                 bufferEmpty: bool, bufferFull: bool, eof: bool, seekOver: bool)
    requires d.state == Buffering && (bufferFull || eof)
    ensures var r := Advance(d, now, frameReady, contentReady, bufferEmpty, bufferFull, eof, seekOver);
      && r.state == Start && CurrentTime(r, now) == d.clock.hangTime && r.clock.hangTime == d.clock.hangTime
      && r.video == d.video && r.pipe == d.pipe && r.stream == d.stream
  {
  }

  /** Without the awaited signal, a pending seek or buffering tick changes nothing. */
  lemma AdvanceWaits(d: Player, now: real, frameReady: bool, contentReady: bool,
                     bufferEmpty: bool, bufferFull: bool, eof: bool, seekOver: bool)
    requires (d.state == SeekFrame && !seekOver) || (d.state == Buffering && !bufferFull && !eof)
    ensures Advance(d, now, frameReady, contentReady, bufferEmpty, bufferFull, eof, seekOver) == d
  {
  }

  /** The preview flag is raised only when a seek issued from Pause resolves. */
  lemma SeekPreviewOnlyFromPause(d: Player, now: real, frameReady: bool, contentReady: bool,
                                 bufferEmpty: bool, bufferFull: bool, eof: bool, seekOver: bool)
    requires Advance(d, now, frameReady, contentReady, bufferEmpty, bufferFull, eof, seekOver).video.seekPreview
    requires !d.video.seekPreview
    ensures d.state == SeekFrame && d.lastState == Pause && seekOver
  {
  }

  /**
   What the playing case of a tick leaves alone: the clock anchor (until an
   underrun re-reads it), the stream, the audio pipeline and the output
   sources except for the preview's pause and volume.
   */
  lemma AdvancePlayingFrame(d: Player, now: real, frameReady: bool, contentReady: bool, bufferEmpty: bool, eof: bool)
    ensures var r := AdvancePlaying(d, now, frameReady, contentReady, bufferEmpty, eof);
      && r.clock.globalStartTime == d.clock.globalStartTime
      && r.stream == d.stream && r.pipe == d.pipe && r.session == d.session && r.loop == d.loop
      && r.slots == d.slots && r.output.swapIndex == d.output.swapIndex
      && r.video.videoEndCount == d.video.videoEndCount
  {
  }

  /** The playing case of a tick stays in Start, Pause (the preview) or Buffering (an underrun). */
  lemma AdvancePlayingStates(d: Player, now: real, frameReady: bool, contentReady: bool, bufferEmpty: bool, eof: bool)
    requires d.state == Start
    ensures var r := AdvancePlaying(d, now, frameReady, contentReady, bufferEmpty, eof);
      && (r.state == Start || r.state == Pause || r.state == Buffering)
      && (r.state == Pause ==> d.video.seekPreview && !r.video.seekPreview)
      && (r.video.seekPreview ==> d.video.seekPreview)
  {
  }

  /** Underrun: with the buffer empty before the end, playing falls back to Buffering and keeps the position. */
  lemma AdvanceUnderrun(d: Player, now: real, frameReady: bool, contentReady: bool,
                        bufferFull: bool, seekOver: bool)
    requires d.state == Start
    ensures var r := Advance(d, now, frameReady, contentReady, true, bufferFull, false, seekOver);
      r.state == Buffering && r.clock.hangTime == now - d.clock.globalStartTime
  {
    AdvancePlayingFrame(d, now, frameReady, contentReady, true, false);
  }

  /**
   The video track becomes ready to replay exactly when, while playing, the
   position (scaled by the rate) is at or past a known duration and the
   engine's buffer is empty.
   */
  lemma VideoReadyOnlyPastEnd(d: Player, now: real, frameReady: bool, contentReady: bool,
                              bufferEmpty: bool, bufferFull: bool, eof: bool, seekOver: bool)
    requires !d.video.videoReady
    ensures Advance(d, now, frameReady, contentReady, bufferEmpty, bufferFull, eof, seekOver).video.videoReady <==>
      && d.state == Start && d.stream.videoEnabled && bufferEmpty
      && d.stream.videoTotalTime != UnknownDuration
      && (now - d.clock.globalStartTime) * d.clock.playbackRate >= d.stream.videoTotalTime
  {
  }

  /**
   Underrun and recovery leave the position continuous: the position when
   playing resumes is the position at the moment of the underrun.
   */
  lemma UnderrunRecoveryContinuity(d: Player, t1: real, t2: real, frameReady: bool, contentReady: bool,
                                   bufferFull: bool, seekOver: bool)
    requires d.state == Start
    requires !EndReached(Advance(d, t1, frameReady, contentReady, true, bufferFull, false, seekOver))
    ensures var b := Tick(d, t1, frameReady, contentReady, true, bufferFull, false, seekOver);
      var c := Tick(b, t2, false, false, false, true, false, false);
      && b.state == Buffering
      && c.state == Start
      && CurrentTime(c, t2) == CurrentTime(d, t1)
  {
    AdvanceUnderrun(d, t1, frameReady, contentReady, bufferFull, seekOver);
    var b := Advance(d, t1, frameReady, contentReady, true, bufferFull, false, seekOver);
    assert Tick(d, t1, frameReady, contentReady, true, bufferFull, false, seekOver) == b;
    AdvanceResolvesBuffering(b, t2, false, false, false, true, false, false);
    assert !EndReached(Advance(b, t2, false, false, false, true, false, false));
  }

  // ---------------------------------------------------------------------
  // End of stream

  /**
   When every enabled track is ready, the tick declares the end: the ready
   flags are cleared, onVideoEnd fires once, and the state is Eof, or, with
   loop set, a replay is already pending (SeekFrame at 0, clock anchored at now).
   */
  lemma EndOfStreamEffect(d: Player, now: real)
    ensures !EndReached(d) ==> EndOfStream(d, now) == d
    ensures EndReached(d) ==>
      var r := EndOfStream(d, now);
      && r.video.videoEndCount == d.video.videoEndCount + 1
      && !r.video.videoReady && !r.pipe.audioReady
      && (!d.loop ==> r.state == Eof && IsVideoEof(r))
      && (d.loop ==> r.state == SeekFrame && r.lastState == Eof && r.clock.hangTime == 0.0
                     && r.video.seekRequest == 0.0 && r.clock.globalStartTime == now)
  {
  }

  /** The state switch never fires onVideoEnd. */
  lemma AdvanceKeepsEndCount(d: Player, now: real, frameReady: bool, contentReady: bool,
                             bufferEmpty: bool, bufferFull: bool, eof: bool, seekOver: bool)
    ensures Advance(d, now, frameReady, contentReady, bufferEmpty, bufferFull, eof, seekOver).video.videoEndCount
         == d.video.videoEndCount
  {
  }

  /** A tick fires onVideoEnd at most once, and exactly when the end condition holds after the state switch. */
  lemma TickFiresEndOnce(d: Player, now: real, frameReady: bool, contentReady: bool,
                         bufferEmpty: bool, bufferFull: bool, eof: bool, seekOver: bool)
    ensures var r := Tick(d, now, frameReady, contentReady, bufferEmpty, bufferFull, eof, seekOver);
      && (r.video.videoEndCount == d.video.videoEndCount || r.video.videoEndCount == d.video.videoEndCount + 1)
      && (r.video.videoEndCount == d.video.videoEndCount + 1 <==>
            PumpRunning(d) && EndReached(Advance(d, now, frameReady, contentReady, bufferEmpty, bufferFull, eof, seekOver)))
  {
    if PumpRunning(d) {
      var a := Advance(d, now, frameReady, contentReady, bufferEmpty, bufferFull, eof, seekOver);
      AdvanceKeepsEndCount(d, now, frameReady, contentReady, bufferEmpty, bufferFull, eof, seekOver);
      EndOfStreamEffect(a, now);
    }
  }

  /**
   After a declared end without loop, further ticks are silent, except for
   an audio-only stream in all-channels mode: there the end condition holds
   with both ready flags clear, so onVideoEnd fires on every tick.
   */
  lemma EndFiresOncePerPass(d: Player, now: real, frameReady: bool, contentReady: bool,
                            bufferEmpty: bool, bufferFull: bool, eof: bool, seekOver: bool)
    requires d.state == Eof && !d.video.videoReady && !d.pipe.audioReady
    ensures Tick(d, now, frameReady, contentReady, bufferEmpty, bufferFull, eof, seekOver).video.videoEndCount
              == d.video.videoEndCount + 1
            <==> !d.stream.videoEnabled && d.stream.audioEnabled && d.stream.allAudioCh
    ensures !(!d.stream.videoEnabled && d.stream.audioEnabled && d.stream.allAudioCh) ==>
              Tick(d, now, frameReady, contentReady, bufferEmpty, bufferFull, eof, seekOver) == d
  {
    assert Advance(d, now, frameReady, contentReady, bufferEmpty, bufferFull, eof, seekOver) == d;
    EndOfStreamEffect(d, now);
  }

  // ---------------------------------------------------------------------
  // Stop

  /**
   stopDecoding does nothing below Initializing; otherwise it ends in
   NotInitialized with no session, no enabled track and no ready flag.
   */
  lemma StopDecodingEffect(d: Player)
    ensures d.state < Initializing ==> StopDecoding(d) == d
    ensures d.state >= Initializing ==>
      var r := StopDecoding(d);
      && r.state == NotInitialized && r.session.decoderId == -1
      && !r.stream.videoEnabled && !r.stream.audioEnabled && !r.stream.allAudioCh
      && !r.video.videoReady && !r.pipe.audioReady
  {
  }

  /** Stopping twice is stopping once. */
  lemma StopDecodingIdempotent(d: Player)
    ensures StopDecoding(StopDecoding(d)) == StopDecoding(d)
  {
  }

  /** A stopped decoder has no audio left queued. */
  lemma StopEmptiesQueue(d: Player)
    requires Inv(d)
    ensures StopDecoding(d).pipe.queue == []
  {
  }

  // ---------------------------------------------------------------------
  // Volume

  /** mute silences the output and keeps the volume; unmute restores it. */
  lemma MuteUnmute(d: Player)
    requires Inv(d)
    ensures Mute(d).output.outputVolume == 0.0 && Mute(d).output.volume == d.output.volume
    ensures Unmute(Mute(d)) == d.(output := d.output.(outputVolume := d.output.volume))
  {
  }

  /** setVolume stores the clamped volume and applies it. */
  lemma SetVolumeEffect(d: Player, v: real)
    ensures var r := SetVolume(d, v);
      && 0.0 <= r.output.volume <= 1.0 && r.output.outputVolume == r.output.volume
      && (0.0 <= v <= 1.0 ==> r.output.volume == v)
  {
  }

  // ---------------------------------------------------------------------
  // The audio queue

  /**
   A pulled block is appended whole, and only when its time stamp is
   positive and differs from the last accepted one.
   */
  lemma PullAudioEffect(d: Player, time: real, frameLength: nat, samples: seq<real>)
    requires |samples| == frameLength * d.stream.channels
    ensures var r := PullAudio(d, time, frameLength, samples);
      && (r.pipe.queue == d.pipe.queue + samples || r.pipe.queue == d.pipe.queue)
      && (r.pipe.queue != d.pipe.queue ==>
            0.0 < time && time != d.pipe.lastPulledTime && AudioRunning(d) && d.state != SeekFrame)
      && (AudioRunning(d) && d.state != SeekFrame && 0.0 < time && time != d.pipe.lastPulledTime && frameLength > 0
          ==> r.pipe.queue == d.pipe.queue + samples && r.pipe.lastPulledTime == time)
  {
  }

  /**
   Scheduling a block hands the front block to the current source, from a
   time not in the past, for exactly one block duration, starting one
   overlap interval in; it drops FrameSize frames from the queue, keeping at
   least both overlap regions, and moves to the next source.
   */
  lemma ScheduleEffect(d: Player, now: real, blockTime: real)
    requires |d.pipe.queue| >= BlockLength(d)
    requires d.output.swapIndex < |d.slots|
    ensures var r := Schedule(d, now, blockTime);
      var c := r.slots[d.output.swapIndex];
      && r.pipe.queue == d.pipe.queue[PlayedLength(d.stream.channels)..]
      && |r.pipe.queue| >= 2 * OverlapSamples(d.stream.overlapLength, d.stream.channels)
      && |r.slots| == |d.slots|
      && c.Scheduled?
      && c.samples == d.pipe.queue[..BlockLength(d)]
      && c.playTime >= now
      && c.endTime == c.playTime + blockTime
      && c.offset == OverlapDuration(d)
      && (forall i :: 0 <= i < |d.slots| && i != d.output.swapIndex ==> r.slots[i] == d.slots[i])
      && r.output.swapIndex == (d.output.swapIndex + 1) % SwapBufferNum
  {
  }

  /**
   A scheduling step that finds a full block and a free output source
   schedules it (after fixing the progress time on the first block).
   */
  lemma AudioStepSchedules(d: Player, now: real, blockTime: real)
    requires Inv(d) && AudioScheduled(d) && d.state == Start
    requires BeforeAudioEnd(d, now)
    requires |d.pipe.queue| >= BlockLength(d)
    ensures AudioStep(d, now, false, blockTime) == Schedule(AnchorProgress(d, now), now, blockTime)
  {
  }

  /**
   Fixing the progress time touches neither the queue nor the output
   sources; on the first block it re-anchors the clock so that the position
   is the progress time, and later it changes nothing.
   */
  lemma AnchorProgressFrame(d: Player, now: real)
    ensures var r := AnchorProgress(d, now);
      && r.pipe.queue == d.pipe.queue && r.output == d.output && r.stream == d.stream && r.state == d.state
    ensures d.pipe.audioProgressTime != -1.0 ==> AnchorProgress(d, now) == d
    ensures d.pipe.audioProgressTime == -1.0 ==>
      var r := AnchorProgress(d, now);
      && r.pipe.audioProgressTime == d.pipe.firstAudioFrameTime + OverlapDuration(d)
      && now - r.clock.globalStartTime == r.pipe.audioProgressTime
  {
  }

  /** The scheduler changes the queue only by dropping one block's frames or, past the end, clearing it. */
  lemma AudioStepQueue(d: Player, now: real, slotBusy: bool, blockTime: real)
    requires Inv(d)
    ensures var r := AudioStep(d, now, slotBusy, blockTime);
      || r.pipe.queue == d.pipe.queue
      || (|d.pipe.queue| >= BlockLength(d) && r.pipe.queue == d.pipe.queue[PlayedLength(d.stream.channels)..])
      || (r.pipe.queue == [] && r.pipe.audioReady)
  {
    if AudioRunning(d) && d.state == Start && BeforeAudioEnd(d, now) && |d.pipe.queue| >= BlockLength(d) && !slotBusy {
      var a := AnchorProgress(d, now);
      AnchorProgressFrame(d, now);
      ScheduleEffect(a, now, blockTime);
    }
  }

  /**
   Past the audio duration the scheduler marks audio ready to replay,
   forgets its time anchors and drops the queue.
   */
  lemma AudioStepPastEnd(d: Player, now: real, slotBusy: bool, blockTime: real)
    requires Inv(d) && AudioScheduled(d) && d.state == Start
    requires !BeforeAudioEnd(d, now)
    ensures var r := AudioStep(d, now, slotBusy, blockTime);
      && r.pipe.audioReady && r.pipe.queue == []
      && r.pipe.audioProgressTime == -1.0 && r.pipe.firstAudioFrameTime == -1.0
  {
  }

  /**
   Two consecutive blocks never overlap in time, and when the second is on
   time it starts exactly where the first ends. Their audible parts are
   consecutive runs of the sample stream, whatever was appended between them.
   */
  lemma ConsecutiveBlocksGapless(d: Player, t1: real, t2: real, blockTime: real, extra: seq<real>)
    requires Inv(d)
    requires |d.pipe.queue| >= BlockLength(d)
    requires |d.pipe.queue| - PlayedLength(d.stream.channels) + |extra| >= BlockLength(d)
    ensures var d2 := Schedule(d, t1, blockTime);
      var d3 := Schedule(d2.(pipe := d2.pipe.(queue := d2.pipe.queue + extra)), t2, blockTime);
      var c1 := d2.slots[d.output.swapIndex];
      var c2 := d3.slots[d2.output.swapIndex];
      var o := OverlapSamples(d.stream.overlapLength, d.stream.channels);
      && c1.Scheduled? && c2.Scheduled?
      && c2.playTime >= c1.endTime
      && (c1.endTime > t2 ==> c2.playTime == c1.endTime)
      && Audible(c1.samples, d.stream.overlapLength, d.stream.channels)
         + Audible(c2.samples, d.stream.overlapLength, d.stream.channels)
         == (d.pipe.queue + extra)[o..o + 2 * PlayedLength(d.stream.channels)]
  {
    var d2 := Schedule(d, t1, blockTime);
    assert d2.pipe.queue == Consume(d.pipe.queue, d.stream.overlapLength, d.stream.channels);
    AudibleTiles(d.pipe.queue, extra, d.stream.overlapLength, d.stream.channels);
  }

  // ---------------------------------------------------------------------
  // The playback position under the scheduler's re-anchoring

  /**
   Scheduling a block never moves the position forward. It moves it back
   exactly when the block is late (its play time is already past): the
   clock is then re-anchored so that the position becomes the progress time.
   */
  lemma ScheduleRewindsLatePosition(d: Player, now: real, blockTime: real)
    requires d.state == Start
    requires |d.pipe.queue| >= BlockLength(d) && d.output.swapIndex < |d.slots|
    ensures var r := Schedule(d, now, blockTime);
      && CurrentTime(r, now) <= CurrentTime(d, now)
      && (CurrentTime(r, now) < CurrentTime(d, now) <==> d.pipe.audioProgressTime + d.clock.globalStartTime < now)
      && (d.pipe.audioProgressTime + d.clock.globalStartTime <= now ==> CurrentTime(r, now) == d.pipe.audioProgressTime)
  {
  }

  /**
   The first anchoring sets the position to the first pulled time stamp plus
   one overlap interval, whatever the position was: it moves back whenever
   playback has already run past that point.
   */
  lemma AnchorSetsPosition(d: Player, now: real)
    requires d.state == Start && d.pipe.audioProgressTime == -1.0
    ensures CurrentTime(AnchorProgress(d, now), now) == d.pipe.firstAudioFrameTime + OverlapDuration(d)
    ensures CurrentTime(AnchorProgress(d, now), now) < CurrentTime(d, now)
            <==> d.pipe.firstAudioFrameTime + OverlapDuration(d) < now - d.clock.globalStartTime
  {
  }

  /**
   The position reported while playing is not monotone: a late block at
   progress time 9, with the clock anchored at 100, takes the position at
   clock time 110 from 10 back to 9; a first anchoring on a time stamp of
   0.5 takes a position of 3 back to 0.52.
   */
  lemma PositionStepsBack(d: Player, e: Player)
    requires d.state == Start && d.clock.globalStartTime == 100.0 && d.pipe.audioProgressTime == 9.0
    requires |d.pipe.queue| >= BlockLength(d) && d.output.swapIndex < |d.slots|
    requires e.state == Start && e.clock.globalStartTime == 97.0 && e.clock.playbackRate == 1.0
    requires e.pipe.audioProgressTime == -1.0 && e.pipe.firstAudioFrameTime == 0.5
    ensures CurrentTime(d, 110.0) == 10.0 && CurrentTime(Schedule(d, 110.0, 0.05), 110.0) == 9.0
    ensures CurrentTime(e, 100.0) == 3.0 && CurrentTime(AnchorProgress(e, 100.0), 100.0) == 0.52
  {
  }

  // ---------------------------------------------------------------------
  // The invariant

  lemma InitialKeepsInv(id: int, allAudioCh: bool)
    ensures Inv(Initial(id, allAudioCh))
  {
  }

  lemma StartDecodingKeepsInv(d: Player, now: real, accepted: bool, bufferFull: bool, eof: bool)
    requires Inv(d)
    ensures Inv(StartDecoding(d, now, accepted, bufferFull, eof))
  {
    if d.state == Initialized && accepted {
      var b := d.(state := Buffering, clock := d.clock.(globalStartTime := now, hangTime := 0.0));
      var a := Advance(b, now, false, false, false, bufferFull, eof, false);
      if !AudioScheduled(d) {
        TickKeepsInv(b, now, false, false, false, bufferFull, eof, false);
      } else {
        assert !EndReached(a);
      }
    }
  }

  lemma InitSuccessKeepsInv(d: Player, info: StreamInfo)
    requires Inv(d) && d.session.initPolling
    ensures Inv(InitSuccess(d, info))
  {
    assert d.pipe.queue == [];
  }

  lemma PollInitKeepsInv(d: Player, result: int, info: StreamInfo, now: real, accepted: bool,
                         bufferFull: bool, eof: bool)
    requires Inv(d)
    ensures Inv(PollInit(d, result, info, now, accepted, bufferFull, eof))
  {
    if d.session.initPolling && result == 1 {
      InitSuccessKeepsInv(d, info);
      StartDecodingKeepsInv(InitSuccess(d, info), now, accepted, bufferFull, eof);
    }
  }

  lemma PlayKeepsInv(d: Player, now: real, accepted: bool, bufferFull: bool, eof: bool)
    requires Inv(d)
    ensures Inv(Play(d, now, accepted, bufferFull, eof))
  {
    StartDecodingKeepsInv(d, now, accepted, bufferFull, eof);
    ResumeKeepsInv(d, now);
  }

  lemma PauseKeepsInv(d: Player, now: real)
    requires Inv(d)
    ensures Inv(SetPause(d, now))
  {
  }

  lemma ResumeKeepsInv(d: Player, now: real)
    requires Inv(d)
    ensures Inv(SetResume(d, now))
  {
  }

  lemma SeekKeepsInv(d: Player, seekTime: real)
    requires Inv(d)
    ensures Inv(SetSeekTime(d, seekTime))
  {
  }

  lemma ReplayKeepsInv(d: Player, now: real)
    requires Inv(d)
    ensures Inv(Replay(d, now))
  {
    SeekKeepsInv(d, 0.0);
  }

  lemma StopKeepsInv(d: Player)
    requires Inv(d)
    ensures Inv(StopDecoding(d))
  {
  }

  lemma SetVolumeKeepsInv(d: Player, v: real)
    requires Inv(d)
    ensures Inv(SetVolume(d, v))
  {
  }

  lemma MuteKeepsInv(d: Player)
    requires Inv(d)
    ensures Inv(Mute(d))
  {
  }

  lemma UnmuteKeepsInv(d: Player)
    requires Inv(d)
    ensures Inv(Unmute(d))
  {
  }

  lemma AdvanceKeepsInv(d: Player, now: real, frameReady: bool, contentReady: bool,
                        bufferEmpty: bool, bufferFull: bool, eof: bool, seekOver: bool)
    requires Inv(d)
    ensures Inv(Advance(d, now, frameReady, contentReady, bufferEmpty, bufferFull, eof, seekOver))
  {
    if d.state == Start {
      AdvancePlayingFrame(d, now, frameReady, contentReady, bufferEmpty, eof);
      AdvancePlayingStates(d, now, frameReady, contentReady, bufferEmpty, eof);
    }
  }

  /** The state switch keeps a running pump running. */
  lemma AdvanceKeepsRunning(d: Player, now: real, frameReady: bool, contentReady: bool,
                            bufferEmpty: bool, bufferFull: bool, eof: bool, seekOver: bool)
    requires PumpRunning(d)
    ensures PumpRunning(Advance(d, now, frameReady, contentReady, bufferEmpty, bufferFull, eof, seekOver))
  {
  }

  lemma EndOfStreamKeepsInv(d: Player, now: real)
    requires Inv(d) && PumpRunning(d)
    ensures Inv(EndOfStream(d, now))
  {
    if EndReached(d) {
      var d1 := d.(state := Eof,
                   video := d.video.(videoReady := false, videoEndCount := d.video.videoEndCount + 1),
                   pipe := d.pipe.(audioReady := false));
      ReplayKeepsInv(d1, now);
    }
  }

  lemma TickKeepsInv(d: Player, now: real, frameReady: bool, contentReady: bool,
                     bufferEmpty: bool, bufferFull: bool, eof: bool, seekOver: bool)
    requires Inv(d)
    ensures Inv(Tick(d, now, frameReady, contentReady, bufferEmpty, bufferFull, eof, seekOver))
  {
    if PumpRunning(d) {
      var a := Advance(d, now, frameReady, contentReady, bufferEmpty, bufferFull, eof, seekOver);
      AdvanceKeepsInv(d, now, frameReady, contentReady, bufferEmpty, bufferFull, eof, seekOver);
      AdvanceKeepsRunning(d, now, frameReady, contentReady, bufferEmpty, bufferFull, eof, seekOver);
      EndOfStreamKeepsInv(a, now);
    }
  }

  lemma PullAudioKeepsInv(d: Player, time: real, frameLength: nat, samples: seq<real>)
    requires Inv(d)
    requires |samples| == frameLength * d.stream.channels
    ensures Inv(PullAudio(d, time, frameLength, samples))
  {
    AppendKeepsAligned(|d.pipe.queue|, frameLength, d.stream.channels);
  }

  lemma AudioStepKeepsInv(d: Player, now: real, slotBusy: bool, blockTime: real)
    requires Inv(d)
    ensures Inv(AudioStep(d, now, slotBusy, blockTime))
  {
    if AudioRunning(d) && d.state == Start && BeforeAudioEnd(d, now) && |d.pipe.queue| >= BlockLength(d) && !slotBusy {
      var a := AnchorProgress(d, now);
      AnchorProgressFrame(d, now);
      ConsumeKeepsAligned(a.pipe.queue, a.stream.overlapLength, a.stream.channels);
      ScheduleEffect(a, now, blockTime);
    }
  }
}
