/**
 * The per-contour filter-and-assemble loop of `ParticleDetector.detect_particles`.
 * The segmentation pipeline and the OpenCV measurements of a contour are not
 * modelled: each contour arrives as the record of values those calls return.
 */
module Detection {
  import opened Wrappers
  import opened Shapes
  import opened Geometry

  /** A fitted ellipse as `fitEllipse` returns it: centre, the two axes, orientation. */
  datatype Ellipse = Ellipse(centerX: real, centerY: real, width: real, height: real, angle: real)

  /** Grey-level statistics over the pixels inside a contour's mask. */
  datatype Texture = Texture(meanIntensity: real, stdIntensity: real, roughness: real)

  /**
   * One candidate contour, given by what OpenCV measures of it: its area,
   * its raw moments m00, m10, m01, its number of boundary points, the ellipse
   * fitted through those points, its closed arc length, the area of its
   * convex hull, and the texture of its mask (None when the mask selects no pixel).
   */
  datatype Contour = Contour(
    area: real,
    m00: real, m10: real, m01: real,
    pointCount: nat,
    fit: Ellipse,
    perimeter: real,
    hullArea: real,
    texture: Option<Texture>)

  /**
   * The record assembled for a kept contour.  `ellipse` and `angle` are
   * present exactly when an ellipse was fitted.
   */
  datatype Particle = Particle(
    contour: Contour,
    area: real,
    centroid: (int, int),
    perimeter: real,
    ellipse: Option<Ellipse>,
    majorAxis: real,
    minorAxis: real,
    aspectRatio: real,
    angle: Option<real>,
    circularity: real,
    shape: ShapeType,
    convexity: real,
    texture: Option<Texture>)

  /**
   * What the loop does with one contour: skip it, append a record, or raise
   * (a division by zero), which ends the loop.
   */
  datatype Outcome = Skipped | Kept(particle: Particle) | Failed

  /** A contour has enough boundary points for an ellipse fit. */
  const MinEllipsePoints: nat := 5

  /** The size window a kept particle's area lies in. */
  predicate InSizeWindow(area: real, minSize: real, maxSize: real)
  {
    minSize <= area <= maxSize
  }

  /** Python's `max` and `min` on the pair of ellipse axes. */
  function LargerAxis(e: Ellipse): real { if e.height > e.width then e.height else e.width }
  function SmallerAxis(e: Ellipse): real { if e.height < e.width then e.height else e.width }

  /**
   * The record would divide by zero: the smaller ellipse axis plus epsilon,
   * or the hull area plus epsilon, is zero: the hull area is -epsilon, or
   * (with an ellipse fitted) one axis is -epsilon and the other no smaller.
   * Non-negative measurements therefore never raise.
   */
  function Raises(c: Contour): (r: bool)
    ensures r <==> (c.hullArea == -Epsilon
      || (c.pointCount >= MinEllipsePoints
          && ((c.fit.width == -Epsilon && -Epsilon <= c.fit.height)
              || (c.fit.height == -Epsilon && -Epsilon <= c.fit.width))))
    ensures 0.0 <= c.hullArea && (c.pointCount < MinEllipsePoints || (0.0 <= c.fit.width && 0.0 <= c.fit.height)) ==> !r
  {
    (c.pointCount >= MinEllipsePoints && SmallerAxis(c.fit) + Epsilon == 0.0)
    || c.hullArea + Epsilon == 0.0
  }

  /**
   * Builds the record of a contour that passed the filters.  With at least
   * five points the axes are the larger and smaller ellipse axes; otherwise
   * both are the square root of the area and the aspect ratio is 1.
   */
  function Assemble(c: Contour, sqrt: real -> real): (p: Particle)
    requires c.m00 != 0.0 && !Raises(c)
    ensures p.contour == c && p.area == c.area && p.perimeter == c.perimeter && p.texture == c.texture
    ensures p.centroid.0 == Truncate(c.m10 / c.m00) && p.centroid.1 == Truncate(c.m01 / c.m00)
    ensures c.pointCount >= MinEllipsePoints ==>
      && p.ellipse == Some(c.fit)
      && p.angle == Some(c.fit.angle)
      && multiset{p.majorAxis, p.minorAxis} == multiset{c.fit.width, c.fit.height}
      && p.minorAxis <= p.majorAxis
      && p.aspectRatio * (p.minorAxis + Epsilon) == p.majorAxis
    ensures c.pointCount < MinEllipsePoints ==>
      && p.ellipse == None
      && p.angle == None
      && p.majorAxis == sqrt(c.area)
      && p.minorAxis == sqrt(c.area)
      && p.aspectRatio == 1.0
    ensures p.circularity == Circularity(c.area, c.perimeter)
    ensures p.shape == Classify(p.circularity, p.aspectRatio)
    ensures p.convexity * (c.hullArea + Epsilon) == c.area
  {
    var centroid := (Truncate(c.m10 / c.m00), Truncate(c.m01 / c.m00));
    var circularity := Circularity(c.area, c.perimeter);
    var convexity := c.area / (c.hullArea + Epsilon);
    if c.pointCount >= MinEllipsePoints then
      var major := LargerAxis(c.fit);
      var minor := SmallerAxis(c.fit);
      var aspectRatio := major / (minor + Epsilon);
      Particle(c, c.area, centroid, c.perimeter, Some(c.fit), major, minor, aspectRatio,
               Some(c.fit.angle), circularity, Classify(circularity, aspectRatio), convexity, c.texture)
    else
      Particle(c, c.area, centroid, c.perimeter, None, sqrt(c.area), sqrt(c.area), 1.0,
               None, circularity, Classify(circularity, 1.0), convexity, c.texture)
  }

  /**
   * One pass of the loop body: the size window and the zero-moment guard
   * skip a contour before anything else is computed.
   */
  function Examine(c: Contour, minSize: real, maxSize: real, sqrt: real -> real): (o: Outcome)
    ensures o.Kept? <==> InSizeWindow(c.area, minSize, maxSize) && c.m00 != 0.0 && !Raises(c)
    ensures o.Failed? <==> InSizeWindow(c.area, minSize, maxSize) && c.m00 != 0.0 && Raises(c)
    ensures o.Kept? ==> o.particle == Assemble(c, sqrt)
  {
    if !InSizeWindow(c.area, minSize, maxSize) then Skipped
    else if c.m00 == 0.0 then Skipped
    else if Raises(c) then Failed
    else Kept(Assemble(c, sqrt))
  }

  /**
   * The particles of one frame: the records of the kept contours in
   * discovery order, up to the first contour whose record raises (the
   * exception handler then returns what was appended so far).
   */
  function Detect(cs: seq<Contour>, minSize: real, maxSize: real, sqrt: real -> real): (ps: seq<Particle>)
    ensures |ps| <= |cs|
    ensures forall k :: 0 <= k < |ps| ==>
      && InSizeWindow(ps[k].area, minSize, maxSize)
      && ps[k].contour.m00 != 0.0
      && !Raises(ps[k].contour)
      && ps[k] == Assemble(ps[k].contour, sqrt)
  {
    if cs == [] then []
    else
      match Examine(cs[0], minSize, maxSize, sqrt)
      case Skipped => Detect(cs[1..], minSize, maxSize, sqrt)
      case Failed => []
      case Kept(p) => [p] + Detect(cs[1..], minSize, maxSize, sqrt)
  }

  /** The contours a particle list was built from. */
  function SourcesOf(ps: seq<Particle>): (cs: seq<Contour>)
    ensures |cs| == |ps|
    ensures forall k :: 0 <= k < |ps| ==> cs[k] == ps[k].contour
  {
    if ps == [] then [] else [ps[0].contour] + SourcesOf(ps[1..])
  }

  /** `xs` is `ys` with some elements removed and the rest kept in order. */
  ghost predicate IsSubsequence<T>(xs: seq<T>, ys: seq<T>)
    decreases |ys|
  {
    if xs == [] then true
    else if ys == [] then false
    else (xs[0] == ys[0] && IsSubsequence(xs[1..], ys[1..])) || IsSubsequence(xs, ys[1..])
  }

  /** The loop of `detect_particles`, appending the record of each kept contour. */
  method DetectParticles(contours: seq<Contour>, minSize: real, maxSize: real, sqrt: real -> real)
    returns (particles: seq<Particle>)
    ensures particles == Detect(contours, minSize, maxSize, sqrt)
    ensures forall k :: 0 <= k < |particles| ==> InSizeWindow(particles[k].area, minSize, maxSize)
  {
    particles := [];
    var i := 0;
    while i < |contours|
      invariant 0 <= i <= |contours|
      invariant particles + Detect(contours[i..], minSize, maxSize, sqrt) == Detect(contours, minSize, maxSize, sqrt)
    {
      var c := contours[i];
      assert contours[i..][1..] == contours[i + 1..];
      if c.area < minSize || c.area > maxSize {
        i := i + 1;
        continue;
      }
      if c.m00 == 0.0 {
        i := i + 1;
        continue;
      }
      if Raises(c) {
        // the division by zero escapes the loop; the handler keeps what was appended
        break;
      }
      particles := particles + [Assemble(c, sqrt)];
      i := i + 1;
    }
    if i == |contours| {
      assert contours[i..] == [];
    }
  }

  /** Every particle comes from an input contour, and the discovery order is kept. */
  lemma {:induction false} DetectIsSubsequence(cs: seq<Contour>, minSize: real, maxSize: real, sqrt: real -> real)
    ensures IsSubsequence(SourcesOf(Detect(cs, minSize, maxSize, sqrt)), cs)
  {
    if cs != [] {
      var ps := Detect(cs, minSize, maxSize, sqrt);
      DetectIsSubsequence(cs[1..], minSize, maxSize, sqrt);
      match Examine(cs[0], minSize, maxSize, sqrt)
      case Skipped =>
      case Failed =>
      case Kept(p) =>
        assert SourcesOf(ps)[1..] == SourcesOf(Detect(cs[1..], minSize, maxSize, sqrt));
    }
  }

  /**
   * Completeness: a contour that passes the filters and comes before every
   * contour that raises has its record in the result.
   */
  lemma {:induction false} DetectKeepsPassingContour(cs: seq<Contour>, i: nat, minSize: real, maxSize: real, sqrt: real -> real)
    requires i < |cs|
    requires forall j :: 0 <= j < i ==> !Examine(cs[j], minSize, maxSize, sqrt).Failed?
    requires Examine(cs[i], minSize, maxSize, sqrt).Kept?
    ensures Assemble(cs[i], sqrt) in Detect(cs, minSize, maxSize, sqrt)
  {
    if i > 0 {
      assert forall j :: 0 <= j < i - 1 ==> cs[1..][j] == cs[j + 1];
      DetectKeepsPassingContour(cs[1..], i - 1, minSize, maxSize, sqrt);
    }
  }

  /** A contour that raises ends the loop: nothing after it is appended. */
  lemma {:induction false} DetectStopsAtFailure(cs: seq<Contour>, i: nat, minSize: real, maxSize: real, sqrt: real -> real)
    requires i < |cs|
    requires Examine(cs[i], minSize, maxSize, sqrt).Failed?
    ensures Detect(cs, minSize, maxSize, sqrt) == Detect(cs[..i], minSize, maxSize, sqrt)
  {
    if i > 0 {
      assert cs[1..][..i - 1] == cs[..i][1..];
      DetectStopsAtFailure(cs[1..], i - 1, minSize, maxSize, sqrt);
    }
  }

  /**
   * With a non-negative minimum size, every particle's circularity lies in
   * [0, 1]; with five or more points its major axis is at least its minor
   * axis, and otherwise both are sqrt(area) and the aspect ratio is 1.
   */
  lemma DetectGeometry(cs: seq<Contour>, minSize: real, maxSize: real, sqrt: real -> real, k: nat)
    requires 0.0 <= minSize
    requires k < |Detect(cs, minSize, maxSize, sqrt)|
    ensures var p := Detect(cs, minSize, maxSize, sqrt)[k];
      && 0.0 <= p.circularity <= 1.0
      && (p.contour.pointCount >= MinEllipsePoints ==> p.ellipse.Some? && p.minorAxis <= p.majorAxis)
      && (p.contour.pointCount < MinEllipsePoints ==>
            p.ellipse.None? && p.majorAxis == p.minorAxis == sqrt(p.area) && p.aspectRatio == 1.0)
  {
  }

  /** A true square root makes the fallback axes those of a square of the same area. */
  ghost predicate IsSquareRoot(sqrt: real -> real)
  {
    forall x: real :: 0.0 <= x ==> 0.0 <= sqrt(x) && sqrt(x) * sqrt(x) == x
  }

  lemma FallbackAxesSquareToArea(c: Contour, sqrt: real -> real)
    requires c.m00 != 0.0 && !Raises(c) && c.pointCount < MinEllipsePoints
    requires 0.0 <= c.area && IsSquareRoot(sqrt)
    ensures var p := Assemble(c, sqrt); p.majorAxis * p.minorAxis == c.area && 0.0 <= p.majorAxis
  {
  }
}
