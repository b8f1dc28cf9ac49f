/**
 The decoder object. Its fields are the controller's own, updated in place
 by the commands, by the frame tick (UpdateDecoder) and by one pass of each
 of the two audio loops; the fields that belong together are kept as the
 records of `Playback` (the engine session, the stream formats, the clock,
 the video side, the audio queue with its anchors, the output settings),
 and the four output sources are an array of what each has been given to
 play. `Model()` reads the object as a `Playback.Player`, and every method
 is proved to compute its counterpart function in `Playback` (UpdateDecoder
 computes `Tick`, one pass of the puller `PullAudio`, one pass of the
 scheduler `AudioStep`, each command the function of its name), so the
 lemmas of `Properties` hold of the object.
 */
module Decoder {
  import opened States
  import opened Timing
  import opened AudioQueue
  import opened Playback
  import Properties

  class FFMPEGDecoder {
    var decoderState: DecoderState
    var lastState: DecoderState
    var loop: bool
    var session: Session
    var stream: Stream
    var clock: Clock
    var video: Video
    var pipe: Pipe
    var output: Output
    const audioSource: array<Clip>

    /** The object read as the controller's abstract value. */
    ghost function Model(): Player
      reads this, audioSource
    {
      Player(decoderState, lastState, loop, session, stream, clock, video, pipe, output, audioSource[..])
    }

    ghost predicate Valid()
      reads this, audioSource
    {
      Inv(Model())
    }

    /**
     The constructor and the synchronous part of the initialisation
     coroutine; `id` is the session the engine hands out.
     */
    constructor (id: int, allAudioCh: bool)
      ensures Valid() && Model() == Initial(id, allAudioCh)
      ensures fresh(audioSource)
    {
      decoderState := Initializing;
      lastState := NotInitialized;
      loop := false;
      session := Session(decoderId := id, initPolling := true, startOnInit := false, workerStarted := false);
      stream := Stream(videoEnabled := false, audioEnabled := false, allAudioCh := allAudioCh,
                       videoTotalTime := 0.0, audioTotalTime := 0.0, channels := 0, overlapLength := 0);
      clock := Clock(globalStartTime := 0.0, hangTime := -1.0, playbackRate := 1.0);
      video := Video(newFrame := false, seekPreview := false, videoReady := false,
                     videoTimeRequest := 0.0, seekRequest := 0.0, videoEndCount := 0);
      pipe := Pipe(queue := [], audioReady := false, audioProgressTime := -1.0,
                   firstAudioFrameTime := -1.0, lastPulledTime := -1.0);
      output := Output(volume := 1.0, outputVolume := 1.0, paused := false, swapIndex := 0);
      audioSource := new Clip[SwapBufferNum](_ => Idle);
      new;
      assert audioSource[..] == StoppedSlots(SwapBufferNum);
    }

    /** The host's write to the public `loop` field. */
    method SetLoop(b: bool)
      requires Valid()
      modifies this
      ensures Valid() && Model() == old(Model()).(loop := b)
    {
      loop := b;
    }

    /** Stops every output source: nothing is left scheduled on any of them. */
    method StopSources()
      modifies audioSource
      ensures audioSource[..] == StoppedSlots(audioSource.Length)
    {
      var i := 0;
      while i < audioSource.Length
        invariant 0 <= i <= audioSource.Length
        invariant forall j :: 0 <= j < i ==> audioSource[j] == Idle
      {
        audioSource[i] := Idle;
        i := i + 1;
      }
    }

    /**
     One resumption of the initialisation coroutine: `result` is
     nativeGetDecoderState, `info` what the engine reports about the tracks,
     `accepted`, `bufferFull` and `eof` the engine's answers to
     startDecoding should the listener run.
     */
    method PollInit(result: int, info: StreamInfo, now: real, accepted: bool, bufferFull: bool, eof: bool)
      requires Valid()
      modifies this, audioSource
      ensures Valid() && Model() == Playback.PollInit(old(Model()), result, info, now, accepted, bufferFull, eof)
    {
      if !session.initPolling || (result != 1 && result != -1) {
        return;
      }
      Properties.InitSuccessKeepsInv(Model(), info);
      session := session.(initPolling := false);
      if result == 1 {
        stream := stream.(videoEnabled := info.videoEnabled);
        if stream.videoEnabled {
          stream := stream.(videoTotalTime := KnownDuration(info.videoDuration));
        }
        stream := stream.(audioEnabled := info.audioEnabled);
        if stream.audioEnabled {
          // getAudioFormat, and initAudioSource outside all-channels mode
          stream := stream.(channels := info.channels, audioTotalTime := KnownDuration(info.audioDuration));
          if !stream.allAudioCh {
            stream := stream.(overlapLength := info.overlapLength);
            output := output.(outputVolume := output.volume);
          }
        }
        decoderState := Initialized;
        assert Model() == InitSuccess(old(Model()), info);
        if session.startOnInit {
          StartDecoding(now, accepted, bufferFull, eof);
        }
      } else {
        decoderState := InitFail;
      }
    }

    /**
     startDecoding; `accepted` is nativeStartDecoding's answer, `bufferFull`
     and `eof` the engine's answers to the first frame tick.
     */
    method StartDecoding(now: real, accepted: bool, bufferFull: bool, eof: bool)
      requires Valid()
      modifies this, audioSource
      ensures Valid() && Model() == Playback.StartDecoding(old(Model()), now, accepted, bufferFull, eof)
    {
      if decoderState == Initialized && accepted {
        decoderState := Buffering;
        clock := clock.(globalStartTime := now);
        clock := clock.(hangTime := now - clock.globalStartTime);
        // starting videoPlay runs its first UpdateDecoder before the puller exists
        FirstTick(now, bufferFull, eof);
        StartLoops();
      }
      Properties.StartDecodingKeepsInv(old(Model()), now, accepted, bufferFull, eof);
    }

    /**
     The rest of startDecoding: the replay flags are cleared; with scheduled
     audio, the prologue of audioPlay resets its anchors and source index,
     and the puller is created and starts on an empty queue.
     */
    method StartLoops()
      modifies this
      ensures Model() == Playback.StartLoops(old(Model()))
    {
      video := video.(videoReady := false);
      pipe := pipe.(audioReady := false);
      if stream.audioEnabled && !stream.allAudioCh {
        output := output.(swapIndex := 0);
        pipe := pipe.(audioProgressTime := -1.0);
        session := session.(workerStarted := true);
        pipe := pipe.(lastPulledTime := -1.0, queue := []);
      }
    }

    /**
     The first UpdateDecoder, run by startDecoding before the puller is
     created: the Buffering case of the state switch, then the end check.
     */
    method FirstTick(now: real, bufferFull: bool, eof: bool)
      requires decoderState == Buffering && Launching(Model())
      modifies this, audioSource
      ensures Launching(Model())
      ensures Model() == Tick(old(Model()), now, false, false, false, bufferFull, eof, false)
    {
      if bufferFull || eof {
        decoderState := Start;
        clock := clock.(globalStartTime := now - clock.hangTime);
      }
      if !stream.audioEnabled || stream.allAudioCh {
        CheckEnd(now);
      } else {
        // both replay flags are clear, so with scheduled audio the end check does not fire
        assert !EndReached(Model());
      }
    }

    method Play(now: real, accepted: bool, bufferFull: bool, eof: bool)
      requires Valid()
      modifies this, audioSource
      ensures Valid() && Model() == Playback.Play(old(Model()), now, accepted, bufferFull, eof)
    {
      if decoderState == Initialized {
        StartDecoding(now, accepted, bufferFull, eof);
      } else if decoderState == Initializing {
        session := session.(startOnInit := true);
      } else {
        SetResume(now);
      }
    }

    method SetPause(now: real)
      requires Valid()
      modifies this
      ensures Valid() && Model() == Playback.SetPause(old(Model()), now)
    {
      if decoderState == Start {
        clock := clock.(hangTime := now - clock.globalStartTime);
        decoderState := Pause;
        if stream.audioEnabled && !stream.allAudioCh {
          output := output.(paused := true);
        }
      }
    }

    method SetResume(now: real)
      requires Valid()
      modifies this
      ensures Valid() && Model() == Playback.SetResume(old(Model()), now)
    {
      if decoderState == Pause {
        clock := clock.(globalStartTime := now - clock.hangTime);
        decoderState := Start;
        if stream.audioEnabled && !stream.allAudioCh {
          output := output.(paused := false);
        }
      }
    }

    /** setSeekTime; the answer says whether the request was taken. */
    method SetSeekTime(seekTime: real) returns (accepted: bool)
      requires Valid()
      modifies this, audioSource
      ensures Valid() && Model() == Playback.SetSeekTime(old(Model()), seekTime)
      ensures accepted == SeekAccepted(old(Model()))
    {
      if decoderState != SeekFrame && decoderState >= Start {
        Properties.SeekKeepsInv(Model(), seekTime);
        lastState := decoderState;
        decoderState := SeekFrame;
        var setTime := 0.0;
        if (stream.videoEnabled && seekTime > stream.videoTotalTime)
           || (stream.audioEnabled && !stream.allAudioCh && seekTime > stream.audioTotalTime)
           || video.videoReady || pipe.audioReady
           || seekTime < 0.0
        {
          setTime := 0.0;
        } else {
          setTime := seekTime;
        }
        clock := clock.(hangTime := setTime);
        video := video.(seekRequest := setTime, videoTimeRequest := setTime);
        if stream.audioEnabled && !stream.allAudioCh {
          pipe := pipe.(queue := [], audioProgressTime := -1.0, firstAudioFrameTime := -1.0);
          StopSources();
        }
        return true;
      }
      return false;
    }

    method Replay(now: real)
      requires Valid()
      modifies this, audioSource
      ensures Valid() && Model() == Playback.Replay(old(Model()), now)
    {
      Properties.ReplayKeepsInv(Model(), now);
      var ok := SetSeekTime(0.0);
      if ok {
        clock := clock.(globalStartTime := now);
        video := video.(videoReady := false);
        pipe := pipe.(audioReady := false);
      }
    }

    /**
     stopDecoding, with the cancellation of the audio puller made safe when
     the puller was never created (see `Findings`).
     */
    method StopDecoding()
      requires Valid()
      modifies this, audioSource
      ensures Valid() && Model() == Playback.StopDecoding(old(Model()))
    {
      if decoderState >= Initializing {
        Properties.StopKeepsInv(Model());
        decoderState := Stop;
        if stream.audioEnabled && !stream.allAudioCh {
          // the puller leaves its loop and releases the queue; the sources are destroyed
          pipe := pipe.(queue := []);
          StopSources();
        }
        session := session.(decoderId := -1);
        decoderState := NotInitialized;
        stream := stream.(videoEnabled := false, audioEnabled := false, allAudioCh := false);
        video := video.(videoReady := false);
        pipe := pipe.(audioReady := false);
      }
    }

    method SetVolume(v: real)
      requires Valid()
      modifies this
      ensures Valid() && Model() == Playback.SetVolume(old(Model()), v)
    {
      output := output.(volume := ClampVolume(v));
      output := output.(outputVolume := output.volume);
    }

    method Mute()
      requires Valid()
      modifies this
      ensures Valid() && Model() == Playback.Mute(old(Model()))
    {
      var temp := output.volume;
      SetVolume(0.0);
      output := output.(volume := temp);
    }

    method Unmute()
      requires Valid()
      modifies this
      ensures Valid() && Model() == Playback.Unmute(old(Model()))
    {
      SetVolume(output.volume);
    }

    /**
     UpdateDecoder, run once per frame by the video coroutine, which exists
     from a successful start until stop (that is, while the state is at
     least Start). The engine's answers are parameters: nativeGrabVideoFrame
     (`frameReady`), nativeIsContentReady, nativeIsVideoBufferEmpty,
     nativeIsVideoBufferFull, nativeIsEOF and nativeIsSeekOver.
     */
    method UpdateDecoder(now: real, frameReady: bool, contentReady: bool, bufferEmpty: bool,
                         bufferFull: bool, eof: bool, seekOver: bool)
      requires Valid()
      modifies this, audioSource
      ensures Valid()
      ensures Model() == Tick(old(Model()), now, frameReady, contentReady, bufferEmpty, bufferFull, eof, seekOver)
    {
      if decoderState < Start {
        return;
      }
      Properties.AdvanceKeepsRunning(Model(), now, frameReady, contentReady, bufferEmpty, bufferFull, eof, seekOver);
      UpdateState(now, frameReady, contentReady, bufferEmpty, bufferFull, eof, seekOver);
      CheckEnd(now);
    }

    /** The state switch of UpdateDecoder. */
    method UpdateState(now: real, frameReady: bool, contentReady: bool, bufferEmpty: bool,
                       bufferFull: bool, eof: bool, seekOver: bool)
      requires Valid()
      modifies this
      ensures Valid()
      ensures Model() == Advance(old(Model()), now, frameReady, contentReady, bufferEmpty, bufferFull, eof, seekOver)
    {
      Properties.AdvanceKeepsInv(Model(), now, frameReady, contentReady, bufferEmpty, bufferFull, eof, seekOver);
      if decoderState == Start {
        if stream.videoEnabled {
          GrabFrame(now, frameReady, contentReady, bufferEmpty);
        }
        if bufferEmpty && !eof {
          decoderState := Buffering;
          clock := clock.(hangTime := now - clock.globalStartTime);
        }
      } else if decoderState == SeekFrame {
        if seekOver {
          clock := clock.(globalStartTime := now - clock.hangTime);
          decoderState := Start;
          if lastState == Pause {
            video := video.(seekPreview := true);
            Mute();
          }
        }
      } else if decoderState == Buffering {
        if bufferFull || eof {
          decoderState := Start;
          clock := clock.(globalStartTime := now - clock.hangTime);
        }
      }
    }

    /** The video part of the Start case: take the frame and move the engine on. */
    method GrabFrame(now: real, frameReady: bool, contentReady: bool, bufferEmpty: bool)
      requires Valid() && decoderState == Start
      modifies this
      ensures Valid()
      ensures Model() == PumpVideo(old(Model()), now, frameReady, contentReady, bufferEmpty)
    {
      if frameReady {
        video := video.(newFrame := true);
      }
      var setTime := (now - clock.globalStartTime) * clock.playbackRate;
      if setTime < stream.videoTotalTime || stream.videoTotalTime == UnknownDuration {
        if video.seekPreview && contentReady {
          SetPause(now);
          video := video.(seekPreview := false);
          Unmute();
        } else {
          video := video.(videoTimeRequest := setTime);
        }
      } else {
        if !bufferEmpty {
          video := video.(videoTimeRequest := setTime);
        } else {
          video := video.(videoReady := true);
        }
      }
    }

    /** The end-of-stream check that closes UpdateDecoder; onVideoEnd is counted. */
    method CheckEnd(now: real)
      requires Valid() && decoderState >= Start
      modifies this, audioSource
      ensures Valid() && Model() == EndOfStream(old(Model()), now)
    {
      Properties.EndOfStreamKeepsInv(Model(), now);
      if stream.videoEnabled || stream.audioEnabled {
        if (!stream.videoEnabled || video.videoReady) && (!stream.audioEnabled || stream.allAudioCh || pipe.audioReady) {
          decoderState := Eof;
          video := video.(videoReady := false);
          pipe := pipe.(audioReady := false);
          video := video.(videoEndCount := video.videoEndCount + 1);
          if loop {
            Replay(now);
          }
        }
      }
    }

    /**
     One pass of the audio puller (pullAudioData): nativeGetAudioData
     answered the time stamp `time` and `frameLength` frames, whose
     frameLength * channels samples are `samples`.
     */
    method PullAudioData(time: real, frameLength: nat, samples: seq<real>)
      requires Valid()
      requires |samples| == frameLength * stream.channels
      modifies this
      ensures Valid() && Model() == PullAudio(old(Model()), time, frameLength, samples)
    {
      if decoderState < Start || !stream.audioEnabled || stream.allAudioCh || decoderState == SeekFrame {
        return;
      }
      Properties.PullAudioKeepsInv(Model(), time, frameLength, samples);
      if 0.0 < time && pipe.lastPulledTime != time && frameLength != 0 {
        if pipe.firstAudioFrameTime == -1.0 {
          pipe := pipe.(firstAudioFrameTime := time);
        }
        pipe := pipe.(lastPulledTime := time);
        pipe := pipe.(queue := pipe.queue + samples);
      }
    }

    /**
     One pass of the scheduler loop of audioPlay. `slotBusy` is whether the
     current output source is still playing, `blockTime` the duration of
     AUDIO_FRAME_SIZE frames at the current rate (audioDataTime).
     */
    method AudioPlayStep(now: real, slotBusy: bool, blockTime: real)
      requires Valid()
      modifies this, audioSource
      ensures Valid() && Model() == AudioStep(old(Model()), now, slotBusy, blockTime)
    {
      if decoderState < Start || !stream.audioEnabled || stream.allAudioCh || decoderState != Start {
        return;
      }
      Properties.AudioStepKeepsInv(Model(), now, slotBusy, blockTime);
      var currentTime := now - clock.globalStartTime;
      if currentTime < stream.audioTotalTime || stream.audioTotalTime == UnknownDuration {
        var dataLength := DataLength(stream.overlapLength, stream.channels);
        if |pipe.queue| >= dataLength {
          if pipe.audioProgressTime == -1.0 {
            pipe := pipe.(audioProgressTime := pipe.firstAudioFrameTime + OverlapTime * clock.playbackRate);
            clock := clock.(globalStartTime := now - pipe.audioProgressTime);
          }
          if !slotBusy {
            ScheduleBlock(now, blockTime);
          }
        }
      } else {
        pipe := pipe.(audioReady := true, audioProgressTime := -1.0, firstAudioFrameTime := -1.0);
        pipe := pipe.(queue := []);
      }
    }

    /**
     Hands the front block of the queue to the current output source, at the
     progress time or, when that is already past, from `now` with the clock
     re-anchored; then moves on to the next source and drops the played part.
     */
    method ScheduleBlock(now: real, blockTime: real)
      requires output.swapIndex < audioSource.Length
      requires |pipe.queue| >= DataLength(stream.overlapLength, stream.channels)
      modifies this, audioSource
      ensures Model() == Schedule(old(Model()), now, blockTime)
    {
      var dataLength := DataLength(stream.overlapLength, stream.channels);
      var playTime := pipe.audioProgressTime + clock.globalStartTime;
      var endTime := playTime + blockTime;
      if playTime <= now {
        clock := clock.(globalStartTime := now - pipe.audioProgressTime);
        playTime := pipe.audioProgressTime + clock.globalStartTime;
        endTime := playTime + blockTime;
      }
      audioSource[output.swapIndex] :=
        Scheduled(pipe.queue[..dataLength], playTime, endTime, OverlapTime * clock.playbackRate);
      pipe := pipe.(audioProgressTime := pipe.audioProgressTime + blockTime);
      output := output.(swapIndex := (output.swapIndex + 1) % SwapBufferNum);
      pipe := pipe.(queue := pipe.queue[PlayedLength(stream.channels)..]);
    }

    /**
     getAllAudioChannelData: `nativeTime` and `lengthPerChannel` are
     nativeGetAudioData's answers and `buffer` the samples it points at.
     */
    method GetAllAudioChannelData(nativeTime: real, lengthPerChannel: int, buffer: seq<real>)
      returns (data: seq<real>, present: bool, time: real, samplesPerChannel: int)
      requires Valid()
      requires lengthPerChannel > 0 ==> lengthPerChannel * stream.channels <= |buffer|
      ensures ChannelData(data, present, time, samplesPerChannel)
              == AllChannelData(Model(), nativeTime, lengthPerChannel, buffer)
    {
      if !stream.allAudioCh {
        return [], false, 0.0, 0;
      }
      data, present := [], false;
      if lengthPerChannel > 0 {
        data, present := buffer[..lengthPerChannel * stream.channels], true;
      }
      time := nativeTime;
      samplesPerChannel := lengthPerChannel;
    }

    /** getVideoCurrentTime, with `now` the clock reading. */
    method GetVideoCurrentTime(now: real) returns (t: real)
      requires Valid()
      ensures t == CurrentTime(Model(), now)
    {
      if decoderState == Initialized || decoderState == Initializing || decoderState == NotInitialized {
        return 0.0;
      }
      if decoderState == Pause || decoderState == SeekFrame {
        return clock.hangTime;
      }
      return now - clock.globalStartTime;
    }

    method IsVideoEOF() returns (eof: bool)
      requires Valid()
      ensures eof == IsVideoEof(Model())
    {
      return decoderState == Eof;
    }
  }
}
