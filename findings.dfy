/**
 stopDecoding cancels the audio puller (`backgroundWorker.CancelAsync()`)
 whenever audio is scheduled, but the puller is created only by a successful
 startDecoding. A decoder whose stream has audio, stopped (or disposed) after
 initialisation but before playback began, dereferences a null worker: the
 call throws with the state already set to Stop, the engine session never
 scheduled for destruction and every track flag still set.
 */
module Findings {
  import opened States
  import opened Playback

  /** How a call ends: normally, or by an exception leaving the given state behind. */
  datatype Outcome = Returned(after: Player) | Threw(after: Player)

  /** stopDecoding as written, including the unchecked cancellation of the puller. */
  function StopDecodingAsWritten(d: Player): (r: Outcome)
    ensures r.Threw? <==> d.state >= Initializing && AudioScheduled(d) && !d.session.workerStarted
  {
    if d.state < Initializing then Returned(d)
    else if AudioScheduled(d) && !d.session.workerStarted then Threw(d.(state := Stop))
    else Returned(StopDecoding(d))
  }

  /** Wherever the puller exists or audio is not scheduled, the code as written is the corrected model. */
  lemma StopAsWrittenAgrees(d: Player)
    requires !AudioScheduled(d) || d.session.workerStarted
    ensures StopDecodingAsWritten(d) == Returned(StopDecoding(d))
  {
  }

  /** On reachable states the exception can only happen before playback has begun. */
  lemma StopThrowsOnlyBeforePlay(d: Player)
    requires Inv(d)
    requires StopDecodingAsWritten(d).Threw?
    ensures Initializing <= d.state < Start
    ensures StopDecodingAsWritten(d).after.session.decoderId == d.session.decoderId
    ensures StopDecodingAsWritten(d).after.stream == d.stream
  {
  }

  /**
   The input that shows it: a stream with audio, initialised and never
   played, then stopped. The code as written throws and leaves the decoder
   in Stop with its session; the corrected stop ends in NotInitialized.
   */
  lemma StopBeforePlayThrows()
    ensures var info := StreamInfo(videoEnabled := true, videoDuration := 10.0, audioEnabled := true,
                                   channels := 2, audioDuration := 10.0, overlapLength := 882);
      var d := PollInit(Initial(7, false), 1, info, 0.0, true, false, false);
      && Inv(d) && d.state == Initialized
      && StopDecodingAsWritten(d) == Threw(d.(state := Stop))
      && StopDecodingAsWritten(d).after.session.decoderId == 7
      && StopDecoding(d).state == NotInitialized && StopDecoding(d).session.decoderId == -1
  {
    var info := StreamInfo(videoEnabled := true, videoDuration := 10.0, audioEnabled := true,
                           channels := 2, audioDuration := 10.0, overlapLength := 882);
    var d0 := Initial(7, false);
    var d := PollInit(d0, 1, info, 0.0, true, false, false);
    assert d.stream.audioEnabled && !d.stream.allAudioCh && !d.session.workerStarted;
    assert d.pipe.queue == [];
  }
}
