/**
 * The aggregate report of `ParticleDetector.quantify_particles`: count,
 * total, mean, minimum and maximum of the areas, the means of the other
 * measures, and the size, shape and roughness histograms.
 */
module Quantification {
  import opened Wrappers
  import opened Shapes
  import opened Detection

  /** Size classes by area: tiny < 100 <= small < 500 <= medium < 2000 <= large. */
  datatype SizeBucket = Tiny | Small | Medium | Large

  /** Roughness classes by the intensity deviation: smooth < 20 <= rough < 50 <= weathered. */
  datatype RoughnessBucket = Smooth | Rough | Weathered

  /** The part of the report present only for a non-empty particle list. */
  datatype Details = Details(
    averageAspectRatio: real,
    averageCircularity: real,
    minSize: real,
    maxSize: real,
    roughnessDistribution: map<RoughnessBucket, nat>)

  datatype Report = Report(
    count: nat,
    averageSize: real,
    averageLength: real,
    averageWidth: real,
    totalArea: real,
    sizeDistribution: map<SizeBucket, nat>,
    shapeDistribution: map<ShapeType, nat>,
    details: Option<Details>)

  /** Each size class tested on its own, as the four counts are. */
  predicate InSizeBucket(area: real, b: SizeBucket)
  {
    match b
    case Tiny => area < 100.0
    case Small => 100.0 <= area < 500.0
    case Medium => 500.0 <= area < 2000.0
    case Large => area >= 2000.0
  }

  /** Each roughness class tested on its own, as the three counts are. */
  predicate InRoughnessBucket(deviation: real, b: RoughnessBucket)
  {
    match b
    case Smooth => deviation < 20.0
    case Rough => 20.0 <= deviation < 50.0
    case Weathered => deviation >= 50.0
  }

  /** The intensity deviation of a particle, 0 when it has no texture (`p.get('std_intensity', 0)`). */
  function StdIntensity(p: Particle): (d: real)
    ensures p.texture.None? ==> d == 0.0 && InRoughnessBucket(d, Smooth)
    ensures p.texture.Some? ==> d == p.texture.value.stdIntensity
  {
    match p.texture
    case Some(t) => t.stdIntensity
    case None => 0.0
  }

  function Areas(ps: seq<Particle>): seq<real> { seq(|ps|, i requires 0 <= i < |ps| => ps[i].area) }
  function Lengths(ps: seq<Particle>): seq<real> { seq(|ps|, i requires 0 <= i < |ps| => ps[i].majorAxis) }
  function Widths(ps: seq<Particle>): seq<real> { seq(|ps|, i requires 0 <= i < |ps| => ps[i].minorAxis) }
  function AspectRatios(ps: seq<Particle>): seq<real> { seq(|ps|, i requires 0 <= i < |ps| => ps[i].aspectRatio) }
  function Circularities(ps: seq<Particle>): seq<real> { seq(|ps|, i requires 0 <= i < |ps| => ps[i].circularity) }
  function ShapeTypes(ps: seq<Particle>): seq<ShapeType> { seq(|ps|, i requires 0 <= i < |ps| => ps[i].shape) }
  function Deviations(ps: seq<Particle>): seq<real> { seq(|ps|, i requires 0 <= i < |ps| => StdIntensity(ps[i])) }

  /**
   * How many areas fall in a size class (`sum(1 for a in areas if ...)`):
   * none exactly when no area is in the class, all exactly when every one is.
   */
  function CountInSizeBucket(areas: seq<real>, b: SizeBucket): (n: nat)
    ensures n <= |areas|
    ensures n == 0 <==> forall k :: 0 <= k < |areas| ==> !InSizeBucket(areas[k], b)
    ensures n == |areas| <==> forall k :: 0 <= k < |areas| ==> InSizeBucket(areas[k], b)
  {
    if areas == [] then 0
    else
      assert forall k :: 1 <= k < |areas| ==> areas[k] == areas[1..][k - 1];
      (if InSizeBucket(areas[0], b) then 1 else 0) + CountInSizeBucket(areas[1..], b)
  }

  /**
   * How many deviations fall in a roughness class: none exactly when no
   * deviation is in the class, all exactly when every one is.
   */
  function CountInRoughnessBucket(deviations: seq<real>, b: RoughnessBucket): (n: nat)
    ensures n <= |deviations|
    ensures n == 0 <==> forall k :: 0 <= k < |deviations| ==> !InRoughnessBucket(deviations[k], b)
    ensures n == |deviations| <==> forall k :: 0 <= k < |deviations| ==> InRoughnessBucket(deviations[k], b)
  {
    if deviations == [] then 0
    else
      assert forall k :: 1 <= k < |deviations| ==> deviations[k] == deviations[1..][k - 1];
      (if InRoughnessBucket(deviations[0], b) then 1 else 0) + CountInRoughnessBucket(deviations[1..], b)
  }

  /** `shapes.count(t)`: the multiplicity of `t` in the list. */
  function CountShape(shapes: seq<ShapeType>, t: ShapeType): (n: nat)
    ensures n == multiset(shapes)[t]
    ensures n <= |shapes|
    ensures n == 0 <==> t !in shapes
  {
    if shapes == [] then 0
    else
      assert shapes == [shapes[0]] + shapes[1..];
      (if shapes[0] == t then 1 else 0) + CountShape(shapes[1..], t)
  }

  /** `np.sum`: a list of non-negative values has a non-negative sum. */
  function Sum(xs: seq<real>): (s: real)
    ensures (forall k :: 0 <= k < |xs| ==> 0.0 <= xs[k]) ==> 0.0 <= s
  {
    if xs == [] then 0.0 else xs[0] + Sum(xs[1..])
  }

  /** `np.mean`: n times the mean is the sum. */
  function Mean(xs: seq<real>): (m: real)
    requires xs != []
    ensures m * (|xs| as real) == Sum(xs)
  {
    Sum(xs) / |xs| as real
  }

  /** The least element: it occurs in the list and no element is below it. */
  function Minimum(xs: seq<real>): (m: real)
    requires xs != []
    ensures m in xs
    ensures forall k :: 0 <= k < |xs| ==> m <= xs[k]
  {
    if |xs| == 1 then xs[0]
    else
      var rest := Minimum(xs[1..]);
      if rest < xs[0] then rest else xs[0]
  }

  /** The greatest element: it occurs in the list and no element is above it. */
  function Maximum(xs: seq<real>): (m: real)
    requires xs != []
    ensures m in xs
    ensures forall k :: 0 <= k < |xs| ==> xs[k] <= m
  {
    if |xs| == 1 then xs[0]
    else
      var rest := Maximum(xs[1..]);
      if rest > xs[0] then rest else xs[0]
  }

  /** The size histogram: the four classes, each with the number of areas in it. */
  function SizeDistribution(areas: seq<real>): (m: map<SizeBucket, nat>)
    ensures m.Keys == {Tiny, Small, Medium, Large}
    ensures && m[Tiny] == CountInSizeBucket(areas, Tiny) && m[Small] == CountInSizeBucket(areas, Small)
            && m[Medium] == CountInSizeBucket(areas, Medium) && m[Large] == CountInSizeBucket(areas, Large)
    ensures m[Tiny] + m[Small] + m[Medium] + m[Large] == |areas|
  {
    SizePartition(areas);
    map[Tiny := CountInSizeBucket(areas, Tiny), Small := CountInSizeBucket(areas, Small),
        Medium := CountInSizeBucket(areas, Medium), Large := CountInSizeBucket(areas, Large)]
  }

  /** The roughness histogram: the three classes, each with the number of deviations in it. */
  function RoughnessDistribution(deviations: seq<real>): (m: map<RoughnessBucket, nat>)
    ensures m.Keys == {Smooth, Rough, Weathered}
    ensures && m[Smooth] == CountInRoughnessBucket(deviations, Smooth)
            && m[Rough] == CountInRoughnessBucket(deviations, Rough)
            && m[Weathered] == CountInRoughnessBucket(deviations, Weathered)
    ensures m[Smooth] + m[Rough] + m[Weathered] == |deviations|
  {
    RoughnessPartition(deviations);
    map[Smooth := CountInRoughnessBucket(deviations, Smooth), Rough := CountInRoughnessBucket(deviations, Rough),
        Weathered := CountInRoughnessBucket(deviations, Weathered)]
  }

  /** The shape histogram: one entry per observed shape, holding how often it occurs. */
  function ShapeDistribution(shapes: seq<ShapeType>): (m: map<ShapeType, nat>)
    ensures forall t :: t in m <==> t in shapes
    ensures forall t :: t in m ==> m[t] == multiset(shapes)[t]
    ensures forall t :: t in m ==> 0 < m[t]
    ensures Total(m) == |shapes|
  {
    ShapeCountsSum(shapes);
    map t | t in shapes :: CountShape(shapes, t)
  }

  /** The sum of a shape map's values, the five shape categories being all its possible keys. */
  function Total(m: map<ShapeType, nat>): nat
  {
    Get(m, Bead) + Get(m, Spherical) + Get(m, Fiber) + Get(m, Fragment) + Get(m, Film)
  }

  function Get(m: map<ShapeType, nat>, t: ShapeType): nat
  {
    if t in m then m[t] else 0
  }

  /**
   * The report.  An empty list gives count 0, zero averages and total, empty
   * histograms and no further details.  Otherwise the averages are the means
   * of the measures, each histogram entry counts the particles in its class,
   * every histogram partitions the particles, and the mean size lies between
   * the least and greatest area.
   */
  function Quantify(ps: seq<Particle>): (r: Report)
    ensures ps == [] ==> r == Report(0, 0.0, 0.0, 0.0, 0.0, map[], map[], None)
    ensures ps != [] ==>
      && r.count == |ps|
      && r.totalArea == Sum(Areas(ps))
      && r.averageSize == r.totalArea / (|ps| as real)
      && r.averageLength == Sum(Lengths(ps)) / (|ps| as real)
      && r.averageWidth == Sum(Widths(ps)) / (|ps| as real)
      && r.sizeDistribution.Keys == {Tiny, Small, Medium, Large}
      && r.sizeDistribution[Tiny] == CountInSizeBucket(Areas(ps), Tiny)
      && r.sizeDistribution[Small] == CountInSizeBucket(Areas(ps), Small)
      && r.sizeDistribution[Medium] == CountInSizeBucket(Areas(ps), Medium)
      && r.sizeDistribution[Large] == CountInSizeBucket(Areas(ps), Large)
      && r.sizeDistribution[Tiny] + r.sizeDistribution[Small]
           + r.sizeDistribution[Medium] + r.sizeDistribution[Large] == r.count
      && (forall t :: t in r.shapeDistribution <==> exists k :: 0 <= k < |ps| && ps[k].shape == t)
      && (forall t :: t in r.shapeDistribution ==> r.shapeDistribution[t] == multiset(ShapeTypes(ps))[t])
      && Total(r.shapeDistribution) == r.count
      && r.details == Some(DetailsOf(ps))
      && r.details.value.roughnessDistribution.Keys == {Smooth, Rough, Weathered}
      && r.details.value.roughnessDistribution[Smooth] + r.details.value.roughnessDistribution[Rough]
           + r.details.value.roughnessDistribution[Weathered] == r.count
      && r.details.value.minSize <= r.averageSize <= r.details.value.maxSize
  {
    if ps == [] then
      Report(0, 0.0, 0.0, 0.0, 0.0, map[], map[], None)
    else
      var areas := Areas(ps);
      var shapes := ShapeTypes(ps);
      var d := DetailsOf(ps);
      ObservedShapes(ps);
      Report(|ps|, Mean(areas), Mean(Lengths(ps)), Mean(Widths(ps)), Sum(areas),
             SizeDistribution(areas), ShapeDistribution(shapes), Some(d))
  }

  /**
   * The statistics reported only for a non-empty list: the means of the
   * aspect ratios and circularities, the least and greatest area (areas of
   * particles that bracket every area and the mean), and the roughness
   * histogram, each entry counting the particles in its class.
   */
  function DetailsOf(ps: seq<Particle>): (d: Details)
    requires ps != []
    ensures d.averageAspectRatio == Sum(AspectRatios(ps)) / (|ps| as real)
    ensures d.averageCircularity == Sum(Circularities(ps)) / (|ps| as real)
    ensures d.roughnessDistribution.Keys == {Smooth, Rough, Weathered}
    ensures && d.roughnessDistribution[Smooth] == CountInRoughnessBucket(Deviations(ps), Smooth)
            && d.roughnessDistribution[Rough] == CountInRoughnessBucket(Deviations(ps), Rough)
            && d.roughnessDistribution[Weathered] == CountInRoughnessBucket(Deviations(ps), Weathered)
    ensures d.roughnessDistribution[Smooth] + d.roughnessDistribution[Rough]
              + d.roughnessDistribution[Weathered] == |ps|
    ensures d.minSize <= Mean(Areas(ps)) <= d.maxSize
    ensures exists k :: 0 <= k < |ps| && ps[k].area == d.minSize
    ensures exists k :: 0 <= k < |ps| && ps[k].area == d.maxSize
    ensures forall k :: 0 <= k < |ps| ==> d.minSize <= ps[k].area <= d.maxSize
  {
    var areas := Areas(ps);
    MeanBetween(areas);
    assert forall k :: 0 <= k < |ps| ==> areas[k] == ps[k].area;
    Details(Mean(AspectRatios(ps)), Mean(Circularities(ps)), Minimum(areas), Maximum(areas),
            RoughnessDistribution(Deviations(ps)))
  }

  /**
   * For the particles of a frame (a non-negative minimum size), the report
   * counts no more particles than there were contours, its mean size lies
   * in the size window, its total area is non-negative and its mean
   * circularity lies in [0, 1].
   */
  lemma DetectedReportBounds(cs: seq<Contour>, minSize: real, maxSize: real, sqrt: real -> real)
    requires 0.0 <= minSize
    ensures var ps := Detect(cs, minSize, maxSize, sqrt);
      var r := Quantify(ps);
      && r.count <= |cs|
      && (ps != [] ==>
            && minSize <= r.averageSize <= maxSize
            && 0.0 <= r.totalArea
            && 0.0 <= r.details.value.averageCircularity <= 1.0)
  {
    var ps := Detect(cs, minSize, maxSize, sqrt);
    if ps != [] {
      var areas := Areas(ps);
      var circularities := Circularities(ps);
      forall k | 0 <= k < |ps|
        ensures minSize <= areas[k] <= maxSize && 0.0 <= circularities[k] <= 1.0
      {
        DetectGeometry(cs, minSize, maxSize, sqrt, k);
      }
      MeanWithin(areas, minSize, maxSize);
      MeanWithin(circularities, 0.0, 1.0);
    }
  }

  /** One more area adds one to the count of its own size class and nothing to the others. */
  lemma {:induction false} SizeCountAppend(areas: seq<real>, a: real, b: SizeBucket)
    ensures CountInSizeBucket(areas + [a], b)
      == CountInSizeBucket(areas, b) + (if InSizeBucket(a, b) then 1 else 0)
  {
    if areas == [] {
      assert [] + [a] == [a];
    } else {
      assert (areas + [a])[1..] == areas[1..] + [a];
      SizeCountAppend(areas[1..], a, b);
    }
  }

  /** One more deviation adds one to the count of its own roughness class and nothing to the others. */
  lemma {:induction false} RoughnessCountAppend(deviations: seq<real>, d: real, b: RoughnessBucket)
    ensures CountInRoughnessBucket(deviations + [d], b)
      == CountInRoughnessBucket(deviations, b) + (if InRoughnessBucket(d, b) then 1 else 0)
  {
    if deviations == [] {
      assert [] + [d] == [d];
    } else {
      assert (deviations + [d])[1..] == deviations[1..] + [d];
      RoughnessCountAppend(deviations[1..], d, b);
    }
  }

  /** A particle without texture has deviation 0, so it is counted as smooth. */
  lemma UntexturedParticleIsSmooth(ps: seq<Particle>, p: Particle)
    requires p.texture.None?
    ensures var before := RoughnessDistribution(Deviations(ps));
      var after := RoughnessDistribution(Deviations(ps + [p]));
      && after[Smooth] == before[Smooth] + 1
      && after[Rough] == before[Rough]
      && after[Weathered] == before[Weathered]
  {
    assert Deviations(ps + [p]) == Deviations(ps) + [0.0];
    RoughnessCountAppend(Deviations(ps), 0.0, Smooth);
    RoughnessCountAppend(Deviations(ps), 0.0, Rough);
    RoughnessCountAppend(Deviations(ps), 0.0, Weathered);
  }

  /** `np.sum` is additive over concatenation. */
  lemma {:induction false} SumConcat(xs: seq<real>, ys: seq<real>)
    ensures Sum(xs + ys) == Sum(xs) + Sum(ys)
  {
    if xs == [] {
      assert xs + ys == ys;
    } else {
      assert (xs + ys)[1..] == xs[1..] + ys;
      SumConcat(xs[1..], ys);
    }
  }

  /** A shape occurs in the shape list exactly when some particle has it. */
  lemma ObservedShapes(ps: seq<Particle>)
    ensures forall t :: t in ShapeTypes(ps) <==> exists k :: 0 <= k < |ps| && ps[k].shape == t
  {
    var shapes := ShapeTypes(ps);
    forall t
      ensures t in shapes <==> exists k :: 0 <= k < |ps| && ps[k].shape == t
    {
      if t in shapes {
        var k :| 0 <= k < |shapes| && shapes[k] == t;
        assert ps[k].shape == t;
      } else {
        forall k | 0 <= k < |ps| ensures ps[k].shape != t {
          assert shapes[k] == ps[k].shape;
        }
      }
    }
  }

  /** Exactly one size class holds any given area. */
  lemma SizeBucketsPartition(area: real, b1: SizeBucket, b2: SizeBucket)
    ensures InSizeBucket(area, Tiny) || InSizeBucket(area, Small) || InSizeBucket(area, Medium) || InSizeBucket(area, Large)
    ensures InSizeBucket(area, b1) && InSizeBucket(area, b2) ==> b1 == b2
  {
  }

  /** Exactly one roughness class holds any given deviation. */
  lemma RoughnessBucketsPartition(deviation: real, b1: RoughnessBucket, b2: RoughnessBucket)
    ensures InRoughnessBucket(deviation, Smooth) || InRoughnessBucket(deviation, Rough) || InRoughnessBucket(deviation, Weathered)
    ensures InRoughnessBucket(deviation, b1) && InRoughnessBucket(deviation, b2) ==> b1 == b2
  {
  }

  /** The four size counts add up to the number of areas. */
  lemma {:induction false} SizePartition(areas: seq<real>)
    ensures CountInSizeBucket(areas, Tiny) + CountInSizeBucket(areas, Small)
      + CountInSizeBucket(areas, Medium) + CountInSizeBucket(areas, Large) == |areas|
  {
    if areas != [] {
      SizePartition(areas[1..]);
    }
  }

  /** The three roughness counts add up to the number of deviations. */
  lemma {:induction false} RoughnessPartition(deviations: seq<real>)
    ensures CountInRoughnessBucket(deviations, Smooth) + CountInRoughnessBucket(deviations, Rough)
      + CountInRoughnessBucket(deviations, Weathered) == |deviations|
  {
    if deviations != [] {
      RoughnessPartition(deviations[1..]);
    }
  }

  /** The counts of the five shapes add up to the number of particles. */
  lemma {:induction false} ShapeCountsSum(shapes: seq<ShapeType>)
    ensures CountShape(shapes, Bead) + CountShape(shapes, Spherical) + CountShape(shapes, Fiber)
      + CountShape(shapes, Fragment) + CountShape(shapes, Film) == |shapes|
  {
    if shapes != [] {
      ShapeCountsSum(shapes[1..]);
    }
  }

  /** A lower bound of every element bounds the sum by n times itself. */
  lemma {:induction false} SumAtLeast(xs: seq<real>, c: real)
    requires forall k :: 0 <= k < |xs| ==> c <= xs[k]
    ensures (|xs| as real) * c <= Sum(xs)
  {
    if xs != [] {
      SumAtLeast(xs[1..], c);
      calc {
        (|xs| as real) * c;
        == c + (|xs[1..]| as real) * c;
        <= xs[0] + Sum(xs[1..]);
      }
    }
  }

  /** An upper bound of every element bounds the sum by n times itself. */
  lemma {:induction false} SumAtMost(xs: seq<real>, c: real)
    requires forall k :: 0 <= k < |xs| ==> xs[k] <= c
    ensures Sum(xs) <= (|xs| as real) * c
  {
    if xs != [] {
      SumAtMost(xs[1..], c);
      calc {
        (|xs| as real) * c;
        == c + (|xs[1..]| as real) * c;
        >= xs[0] + Sum(xs[1..]);
      }
    }
  }

  /** The mean lies between the least and the greatest element. */
  lemma MeanBetween(xs: seq<real>)
    requires xs != []
    ensures Minimum(xs) <= Mean(xs) <= Maximum(xs)
  {
    MeanWithin(xs, Minimum(xs), Maximum(xs));
  }

  /** A common bound of all elements bounds the mean. */
  lemma MeanWithin(xs: seq<real>, lo: real, hi: real)
    requires xs != []
    requires forall k :: 0 <= k < |xs| ==> lo <= xs[k] <= hi
    ensures lo <= Mean(xs) <= hi
  {
    SumAtLeast(xs, lo);
    SumAtMost(xs, hi);
    QuotientBetween(Sum(xs), |xs| as real, lo, hi);
  }

  /** Dividing n * lo <= s <= n * hi by a positive n. */
  lemma QuotientBetween(s: real, n: real, lo: real, hi: real)
    requires 0.0 < n && n * lo <= s <= n * hi
    ensures lo <= s / n <= hi
    ensures (s / n) * n == s
  {
    if s / n < lo {
      calc {
        s;
        == (s / n) * n;
        < lo * n;
      }
    }
    if hi < s / n {
      calc {
        s;
        == (s / n) * n;
        > hi * n;
      }
    }
  }
}
