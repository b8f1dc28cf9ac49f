/**
 Scalar rules of the decoder that do not depend on its state: how a duration
 reported by the decode engine is stored, and how a requested volume is
 clamped. Times are seconds, as `real`; the source's float and double
 rounding is not modelled.
 */
module Timing {

  /** The value stored for an unknown or live duration. */
  const UnknownDuration: real := -1.0

  /** Length of the padding region on each side of a scheduled audio block, in seconds at rate 1. */
  const OverlapTime: real := 0.02

  /**
   The stored total time of a track: a positive reported duration is kept,
   anything else becomes the -1 sentinel.
   */
  function KnownDuration(reported: real): (t: real)
    ensures t == UnknownDuration || t > 0.0
    ensures reported > 0.0 ==> t == reported
    ensures reported <= 0.0 ==> t == UnknownDuration
  {
    if reported > 0.0 then reported else UnknownDuration
  }

  /** Volume requested by the host, clamped to the interval [0, 1]. */
  function ClampVolume(v: real): (r: real)
    ensures 0.0 <= r <= 1.0
    ensures 0.0 <= v <= 1.0 ==> r == v
    ensures v < 0.0 ==> r == 0.0
    ensures v > 1.0 ==> r == 1.0
  {
    if v < 0.0 then 0.0 else if v > 1.0 then 1.0 else v
  }

  /** Clamping twice is clamping once. */
  lemma ClampVolumeIdempotent(v: real)
    ensures ClampVolume(ClampVolume(v)) == ClampVolume(v)
  {
  }
}
