/**
 The decoder's lifecycle states. The source declares them as an enumeration
 numbered from -2 and guards its commands with ordinal comparisons ("has
 playback begun" is `state >= Start`), so the model keeps the numbers: a
 state is an integer in [-2, 7] and the guards are integer comparisons.
 */
module States {

  newtype DecoderState = n: int | -2 <= n <= 7

  /** The decode session could not be created (terminal). */
  const InitFail: DecoderState := -2
  /** Transient, while a session is being torn down. */
  const Stop: DecoderState := -1
  const NotInitialized: DecoderState := 0
  const Initializing: DecoderState := 1
  const Initialized: DecoderState := 2
  /** Playing. */
  const Start: DecoderState := 3
  const Pause: DecoderState := 4
  const SeekFrame: DecoderState := 5
  const Buffering: DecoderState := 6
  const Eof: DecoderState := 7

  /** The states from which playback has begun are exactly the five active ones. */
  lemma ActiveStates(s: DecoderState)
    ensures s >= Start <==> s == Start || s == Pause || s == SeekFrame || s == Buffering || s == Eof
  {
  }
}
