/**
 * The detector object: its configuration, the particles of the latest
 * frame, the frame counter, the running flag and the bounded history, as
 * updated by the body of `ParticleDetector.capture_loop`.
 */
module Detector {
  import opened Detection
  import opened History

  /** Capacity of the particle history. */
  const HistoryCapacity: nat := 100
  /** Default size window, in pixels of area. */
  const DefaultMinParticleSize: real := 50.0
  const DefaultMaxParticleSize: real := 10000.0

  /** A history entry: when the frame was processed, a copy of its particles, and their number. */
  datatype FrameSample = FrameSample(timestamp: int, particles: seq<Particle>, count: nat)

  /**
   * What one successful camera read provides to the model: the contours the
   * segmentation finds in the frame and the clock reading taken for it.
   */
  datatype CapturedFrame = CapturedFrame(contours: seq<Contour>, timestamp: int)

  /** The history entry recorded for one frame. */
  function SampleOf(f: CapturedFrame, minSize: real, maxSize: real, sqrt: real -> real): (s: FrameSample)
    ensures s.timestamp == f.timestamp
    ensures s.particles == Detect(f.contours, minSize, maxSize, sqrt)
    ensures s.count == |s.particles|
  {
    var ps := Detect(f.contours, minSize, maxSize, sqrt);
    FrameSample(f.timestamp, ps, |ps|)
  }

  /** The history entries recorded for a run of frames, in capture order. */
  function Samples(frames: seq<CapturedFrame>, minSize: real, maxSize: real, sqrt: real -> real): seq<FrameSample>
  {
    seq(|frames|, k requires 0 <= k < |frames| => SampleOf(frames[k], minSize, maxSize, sqrt))
  }

  /** One more frame adds its sample at the end. */
  lemma SamplesExtend(frames: seq<CapturedFrame>, i: nat, minSize: real, maxSize: real, sqrt: real -> real)
    requires i < |frames|
    ensures Samples(frames[..i + 1], minSize, maxSize, sqrt)
      == Samples(frames[..i], minSize, maxSize, sqrt) + [SampleOf(frames[i], minSize, maxSize, sqrt)]
  {
    var a := Samples(frames[..i + 1], minSize, maxSize, sqrt);
    var b := Samples(frames[..i], minSize, maxSize, sqrt) + [SampleOf(frames[i], minSize, maxSize, sqrt)];
    assert |a| == |b|;
    forall k | 0 <= k < |a| ensures a[k] == b[k] {
      assert frames[..i + 1][k] == frames[k];
    }
  }

  class ParticleDetector {
    const minParticleSize: real
    const maxParticleSize: real
    /** The particles of the latest processed frame. */
    var particles: seq<Particle>
    /** The number of frames processed. */
    var frameCount: nat
    var isRunning: bool
    const particleHistory: BoundedDeque<FrameSample>

    ghost predicate Valid()
      reads this, particleHistory
    {
      particleHistory.Valid() && particleHistory.maxLen == HistoryCapacity
    }

    constructor ()
      ensures Valid() && fresh(particleHistory)
      ensures minParticleSize == DefaultMinParticleSize && maxParticleSize == DefaultMaxParticleSize
      ensures particles == [] && frameCount == 0 && !isRunning && particleHistory.items == []
    {
      minParticleSize := DefaultMinParticleSize;
      maxParticleSize := DefaultMaxParticleSize;
      particles := [];
      frameCount := 0;
      isRunning := false;
      particleHistory := new BoundedDeque(HistoryCapacity);
    }

    /**
     * One iteration of the capture loop on a frame that was read: detect its
     * particles, record a sample of them in the history, count the frame.
     */
    method ProcessFrame(frame: CapturedFrame, sqrt: real -> real)
      requires Valid()
      modifies this`particles, this`frameCount, particleHistory
      ensures Valid()
      ensures particles == Detect(frame.contours, minParticleSize, maxParticleSize, sqrt)
      ensures particleHistory.items ==
                LastN(old(particleHistory.items) + [SampleOf(frame, minParticleSize, maxParticleSize, sqrt)], HistoryCapacity)
      ensures frameCount == old(frameCount) + 1
    {
      particles := DetectParticles(frame.contours, minParticleSize, maxParticleSize, sqrt);
      particleHistory.Append(FrameSample(frame.timestamp, particles, |particles|));
      frameCount := frameCount + 1;
    }

    /**
     * The capture loop over the frames the camera delivers before a read
     * fails.  When the camera does not open nothing changes.  Otherwise each
     * frame's particles become the current particles, a sample of them is
     * appended to the history and the frame counter goes up by one; when the
     * reads run out the loop ends and the running flag is cleared.
     */
    method CaptureLoop(cameraOpens: bool, frames: seq<CapturedFrame>, sqrt: real -> real)
      requires Valid()
      modifies this, particleHistory
      ensures Valid()
      ensures !cameraOpens ==>
        && particles == old(particles)
        && frameCount == old(frameCount)
        && isRunning == old(isRunning)
        && particleHistory.items == old(particleHistory.items)
      ensures cameraOpens ==>
        && frameCount == old(frameCount) + |frames|
        && particles == (if frames == [] then old(particles)
                         else Detect(frames[|frames| - 1].contours, minParticleSize, maxParticleSize, sqrt))
        && particleHistory.items ==
             LastN(old(particleHistory.items) + Samples(frames, minParticleSize, maxParticleSize, sqrt), HistoryCapacity)
        && !isRunning
    {
      if !cameraOpens {
        return;
      }
      isRunning := true;
      var i := 0;
      ghost var start := particleHistory.items;
      ghost var appended: seq<FrameSample> := [];
      while isRunning
        invariant Valid()
        invariant 0 <= i <= |frames|
        invariant isRunning
        invariant frameCount == old(frameCount) + i
        invariant particles == (if i == 0 then old(particles)
                                else Detect(frames[i - 1].contours, minParticleSize, maxParticleSize, sqrt))
        invariant appended == Samples(frames[..i], minParticleSize, maxParticleSize, sqrt)
        invariant particleHistory.items == LastN(start + appended, HistoryCapacity)
        decreases |frames| - i
      {
        if i == |frames| {
          // the camera read reports no frame
          break;
        }
        ghost var sample := SampleOf(frames[i], minParticleSize, maxParticleSize, sqrt);
        ProcessFrame(frames[i], sqrt);
        LastNOfAppend(start + appended, [sample], HistoryCapacity);
        SamplesExtend(frames, i, minParticleSize, maxParticleSize, sqrt);
        assert start + appended + [sample] == start + (appended + [sample]);
        appended := appended + [sample];
        i := i + 1;
      }
      assert frames[..i] == frames;
      isRunning := false;
    }
  }
}
