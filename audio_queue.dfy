/**
 Arithmetic of the interleaved audio sample queue. Samples arrive from the
 decode engine in blocks of `frameLength * channels` values; the scheduler
 takes a block of `(FrameSize + 2 * overlap) * channels` values from the
 front (one overlap region on each side of FrameSize frames), but drops
 only `FrameSize * channels`, so that the next block begins with the last
 2 * overlap frames of this one: the end of its audible part, followed by
 its trailing overlap region.
 */
module AudioQueue {

  /** Frames per scheduled audio block (AUDIO_FRAME_SIZE). */
  const FrameSize: nat := 2048

  /** Number of output sources the scheduler rotates through (SWAP_BUFFER_NUM). */
  const SwapBufferNum: nat := 4

  /** A queue length that is a whole number of interleaved frames. */
  predicate Aligned(n: nat, channels: nat)
  {
    if channels == 0 then n == 0 else n % channels == 0
  }

  /** Samples in one scheduled block, overlap regions included (audioDataLength). */
  function DataLength(overlap: nat, channels: nat): nat
  {
    (FrameSize + 2 * overlap) * channels
  }

  /** Samples dropped from the queue per scheduled block (playedAudioDataLength). */
  function PlayedLength(channels: nat): nat
  {
    FrameSize * channels
  }

  /** Samples in one overlap region. */
  function OverlapSamples(overlap: nat, channels: nat): nat
  {
    overlap * channels
  }

  /** A block is the played part plus two overlap regions. */
  lemma DataLengthSplit(overlap: nat, channels: nat)
    ensures DataLength(overlap, channels) == PlayedLength(channels) + 2 * OverlapSamples(overlap, channels)
  {
  }

  /** The block handed to an output source: the first DataLength samples. */
  function Block(q: seq<real>, overlap: nat, channels: nat): (b: seq<real>)
    requires |q| >= DataLength(overlap, channels)
    ensures |b| == DataLength(overlap, channels)
    ensures forall i :: 0 <= i < |b| ==> b[i] == q[i]
  {
    q[..DataLength(overlap, channels)]
  }

  /** The queue after a block has been scheduled. */
  function Consume(q: seq<real>, overlap: nat, channels: nat): (r: seq<real>)
    requires |q| >= DataLength(overlap, channels)
    ensures |r| == |q| - PlayedLength(channels)
    ensures |r| >= 2 * OverlapSamples(overlap, channels)
    ensures forall i :: 0 <= i < |r| ==> r[i] == q[i + PlayedLength(channels)]
  {
    DataLengthSplit(overlap, channels);
    q[PlayedLength(channels)..]
  }

  /**
   The part of a block that is heard: playback starts one overlap region in
   and stops after FrameSize frames.
   */
  function Audible(b: seq<real>, overlap: nat, channels: nat): (a: seq<real>)
    requires |b| == DataLength(overlap, channels)
    ensures |a| == PlayedLength(channels)
  {
    DataLengthSplit(overlap, channels);
    b[OverlapSamples(overlap, channels)..OverlapSamples(overlap, channels) + PlayedLength(channels)]
  }

  /** Only the zero multiple of c lies strictly between -c and c. */
  lemma SmallMultiple(c: nat, k: int)
    requires c > 0
    requires -(c as int) < c * k < c
    ensures k == 0
  {
  }

  /** Adding one frame keeps the remainder. */
  lemma AddFrame(n: nat, channels: nat)
    requires channels > 0
    ensures (n + channels) % channels == n % channels
  {
    var a, b := (n + channels) / channels, n / channels;
    var ra, rb := (n + channels) % channels, n % channels;
    assert channels * a + ra == n + channels;
    assert channels * b + rb == n;
    assert channels * (a - b - 1) == channels * a - channels * b - channels;
    assert channels * (a - b - 1) == rb - ra;
    SmallMultiple(channels, a - b - 1);
  }

  /** Adding a multiple of the channel count keeps the remainder. */
  lemma {:induction false} AddFrames(n: nat, k: nat, channels: nat)
    requires channels > 0
    ensures (n + k * channels) % channels == n % channels
    decreases k
  {
    if k > 0 {
      var m := n + (k - 1) * channels;
      AddFrames(n, k - 1, channels);
      assert n + k * channels == m + channels;
      AddFrame(m, channels);
    }
  }

  /** Appending whole frames keeps the queue aligned. */
  lemma AppendKeepsAligned(n: nat, frameLength: nat, channels: nat)
    requires Aligned(n, channels)
    ensures Aligned(n + frameLength * channels, channels)
  {
    if channels > 0 {
      AddFrames(n, frameLength, channels);
    }
  }

  /**
   Scheduling a block keeps the queue aligned, removes exactly FrameSize
   frames and leaves at least the two overlap regions of that block.
   */
  lemma ConsumeKeepsAligned(q: seq<real>, overlap: nat, channels: nat)
    requires Aligned(|q|, channels)
    requires |q| >= DataLength(overlap, channels)
    ensures Aligned(|Consume(q, overlap, channels)|, channels)
  {
    var r := Consume(q, overlap, channels);
    if channels > 0 {
      AddFrames(|r|, FrameSize, channels);
      assert |q| == |r| + FrameSize * channels;
    }
  }

  /**
   The next block begins with the last 2 * overlap frames of this one (the
   end of its audible part, then its trailing overlap region), whatever was
   appended in between.
   */
  lemma NextBlockOverlaps(q: seq<real>, extra: seq<real>, overlap: nat, channels: nat)
    requires |q| >= DataLength(overlap, channels)
    ensures |Consume(q, overlap, channels) + extra| >= 2 * OverlapSamples(overlap, channels)
    ensures (Consume(q, overlap, channels) + extra)[..2 * OverlapSamples(overlap, channels)]
         == Block(q, overlap, channels)[PlayedLength(channels)..]
  {
    DataLengthSplit(overlap, channels);
  }

  /**
   Gapless playback: the audible parts of two consecutive blocks are
   consecutive runs of the sample stream (the queue followed by whatever was
   appended before the second block was taken).
   */
  lemma AudibleTiles(q: seq<real>, extra: seq<real>, overlap: nat, channels: nat)
    requires |q| >= DataLength(overlap, channels)
    requires |Consume(q, overlap, channels) + extra| >= DataLength(overlap, channels)
    ensures var o := OverlapSamples(overlap, channels);
            var p := PlayedLength(channels);
            o + 2 * p <= |q + extra| &&
            Audible(Block(q, overlap, channels), overlap, channels)
              + Audible(Block(Consume(q, overlap, channels) + extra, overlap, channels), overlap, channels)
            == (q + extra)[o..o + 2 * p]
  {
    DataLengthSplit(overlap, channels);
    var o := OverlapSamples(overlap, channels);
    var p := PlayedLength(channels);
    var r := Consume(q, overlap, channels) + extra;
    var a1 := Audible(Block(q, overlap, channels), overlap, channels);
    var a2 := Audible(Block(r, overlap, channels), overlap, channels);
    assert |r| == |q| - p + |extra|;
    forall i | 0 <= i < 2 * p
      ensures (a1 + a2)[i] == (q + extra)[o + i]
    {
      if i < p {
        assert (a1 + a2)[i] == a1[i] == q[o + i];
      } else {
        assert (a1 + a2)[i] == a2[i - p] == r[o + i - p];
        assert r[o + i - p] == (q + extra)[o + i];
      }
    }
  }

  /** Samples played from n consecutive blocks: n times the played length. */
  function RunLength(channels: nat, n: nat): nat
  {
    if n == 0 then 0 else PlayedLength(channels) + RunLength(channels, n - 1)
  }

  /** The run length is n blocks of FrameSize frames of every channel. */
  lemma {:induction false} RunLengthClosed(channels: nat, n: nat)
    ensures RunLength(channels, n) == n * FrameSize * channels
    decreases n
  {
    if n > 0 {
      RunLengthClosed(channels, n - 1);
      assert n * FrameSize * channels == (n - 1) * FrameSize * channels + FrameSize * channels;
    }
  }

  /**
   The queue after the scheduler has taken n consecutive blocks from q, when
   nothing is appended in between.
   */
  function ConsumeRun(q: seq<real>, overlap: nat, channels: nat, n: nat): seq<real>
    requires |q| >= RunLength(channels, n) + 2 * OverlapSamples(overlap, channels)
    decreases n
  {
    if n == 0 then q
    else
      DataLengthSplit(overlap, channels);
      ConsumeRun(Consume(q, overlap, channels), overlap, channels, n - 1)
  }

  /**
   n scheduled blocks drop exactly the first n * FrameSize frames of the
   queue and keep the rest in order.
   */
  lemma {:induction false} ConsumeRunDrops(q: seq<real>, overlap: nat, channels: nat, n: nat)
    requires |q| >= RunLength(channels, n) + 2 * OverlapSamples(overlap, channels)
    ensures RunLength(channels, n) <= |q|
    ensures ConsumeRun(q, overlap, channels, n) == q[RunLength(channels, n)..]
    ensures |ConsumeRun(q, overlap, channels, n)| == |q| - n * FrameSize * channels
    decreases n
  {
    RunLengthClosed(channels, n);
    if n > 0 {
      var p := PlayedLength(channels);
      DataLengthSplit(overlap, channels);
      var r := Consume(q, overlap, channels);
      ConsumeRunDrops(r, overlap, channels, n - 1);
      assert r[RunLength(channels, n - 1)..] == q[p + RunLength(channels, n - 1)..];
    }
  }

  /**
   The audible parts of the next n blocks the scheduler takes from q, in
   the order they are played, when nothing is appended in between.
   */
  function AudibleRun(q: seq<real>, overlap: nat, channels: nat, n: nat): seq<real>
    requires |q| >= RunLength(channels, n) + 2 * OverlapSamples(overlap, channels)
    decreases n
  {
    if n == 0 then []
    else
      DataLengthSplit(overlap, channels);
      Audible(Block(q, overlap, channels), overlap, channels)
        + AudibleRun(Consume(q, overlap, channels), overlap, channels, n - 1)
  }

  /**
   Gapless playback over any number of blocks: what the output sources play
   from n consecutive blocks is one contiguous run of the queue, n times
   FrameSize frames long, starting after the first block's leading overlap
   region.
   */
  lemma {:induction false} AudibleRunContiguous(q: seq<real>, overlap: nat, channels: nat, n: nat)
    requires |q| >= RunLength(channels, n) + 2 * OverlapSamples(overlap, channels)
    ensures var o := OverlapSamples(overlap, channels);
            o + RunLength(channels, n) <= |q| &&
            AudibleRun(q, overlap, channels, n) == q[o..o + RunLength(channels, n)]
    decreases n
  {
    if n > 0 {
      var p, o := PlayedLength(channels), OverlapSamples(overlap, channels);
      var m := RunLength(channels, n - 1);
      DataLengthSplit(overlap, channels);
      var r := Consume(q, overlap, channels);
      AudibleRunContiguous(r, overlap, channels, n - 1);
      assert r[o..o + m] == q[p + o..o + p + m];
      assert Audible(Block(q, overlap, channels), overlap, channels) == q[o..o + p];
      assert q[o..o + p] + q[o + p..o + p + m] == q[o..o + p + m];
    }
  }
}
