/**
 * The rule-based shape classifier of the particle detector
 * (`ParticleDetector.classify_shape`).
 */
module Shapes {

  /** The five shape categories a particle can be given. */
  datatype ShapeType = Bead | Spherical | Fiber | Fragment | Film

  /** Circularity above this value marks a round particle. */
  const RoundCircularity: real := 0.7
  /** A round particle with aspect ratio below this is a bead. */
  const BeadAspectRatio: real := 1.3
  /** A non-round particle with aspect ratio above this is a fiber. */
  const FiberAspectRatio: real := 3.0
  /** A non-round particle with aspect ratio above this (and not a fiber) is a fragment. */
  const FragmentAspectRatio: real := 1.5

  /** The label the detector reports for a category. */
  function Label(t: ShapeType): string
  {
    match t
    case Bead => "bead"
    case Spherical => "spherical"
    case Fiber => "fiber"
    case Fragment => "fragment"
    case Film => "film"
  }

  /**
   * Ordered first-match rule: circularity is tested first, then the aspect
   * ratio from the most to the least elongated threshold.  Each label is
   * characterised by the region of (circularity, aspect ratio) it covers.
   */
  function Classify(circularity: real, aspectRatio: real): (t: ShapeType)
    ensures t == Bead <==> circularity > RoundCircularity && aspectRatio < BeadAspectRatio
    ensures t == Spherical <==> circularity > RoundCircularity && aspectRatio >= BeadAspectRatio
    ensures t == Fiber <==> circularity <= RoundCircularity && aspectRatio > FiberAspectRatio
    ensures t == Fragment <==>
      circularity <= RoundCircularity && FragmentAspectRatio < aspectRatio <= FiberAspectRatio
    ensures t == Film <==> circularity <= RoundCircularity && aspectRatio <= FragmentAspectRatio
  {
    if circularity > RoundCircularity then
      if aspectRatio < BeadAspectRatio then Bead else Spherical
    else if aspectRatio > FiberAspectRatio then Fiber
    else if aspectRatio > FragmentAspectRatio then Fragment
    else Film
  }

  /**
   * How elongated a category is, on two scales: film < fragment < fiber for
   * the low-circularity categories, and bead < spherical for the round ones.
   */
  function Elongation(t: ShapeType): nat
  {
    match t
    case Film => 0
    case Fragment => 1
    case Fiber => 2
    case Bead => 0
    case Spherical => 1
  }

  /** The labels are pairwise distinct, so a label determines its category. */
  lemma LabelInjective(s: ShapeType, t: ShapeType)
    ensures Label(s) == Label(t) <==> s == t
  {
    if s != t {
      assert Label(s)[0] != Label(t)[0] || Label(s)[2] != Label(t)[2];
    }
  }

  /**
   * Circularity dominates: a round particle is a bead or spherical whatever
   * its aspect ratio, and a non-round one never is.
   */
  lemma CircularityDominates(circularity: real, aspectRatio: real)
    ensures circularity > RoundCircularity <==> Classify(circularity, aspectRatio) in {Bead, Spherical}
  {
  }

  /**
   * For a fixed circularity, a larger aspect ratio never gives a less
   * elongated category.
   */
  lemma ClassifyMonotoneInAspectRatio(circularity: real, a1: real, a2: real)
    requires a1 <= a2
    ensures Elongation(Classify(circularity, a1)) <= Elongation(Classify(circularity, a2))
  {
  }

  /** The worked examples of the classification rule. */
  lemma ClassifyExamples()
    ensures Classify(0.8, 1.1) == Bead
    ensures Classify(0.8, 2.0) == Spherical
    ensures Classify(0.3, 4.0) == Fiber
    ensures Classify(0.3, 2.0) == Fragment
    ensures Classify(0.3, 1.0) == Film
  {
  }
}
