/** Clustering parameter sets: one per evidence-pairing class, each with a
    reciprocal-overlap threshold, a breakend window, a sample-overlap
    threshold and the combinator (overlap AND proximity, or either). */
module Parameters {
  import opened Records

  /** Which record pairs a parameter set applies to, by evidence class. */
  datatype PairClass = DepthOnlyPair | MixedPair | EvidencePair

  datatype ClusteringParameters = ClusteringParameters(
    reciprocalOverlap: real,
    window: int,
    sampleOverlap: real,
    requiresOverlapAndProximity: bool,
    pairClass: PairClass)

  /** What construction accepts: both thresholds in [0, 1], a non-negative window. */
  predicate Valid(p: ClusteringParameters)
  {
    && 0.0 <= p.reciprocalOverlap <= 1.0
    && p.window >= 0
    && 0.0 <= p.sampleOverlap <= 1.0
  }

  /** Whether `p` is the parameter set for the pair (a, b). */
  predicate IsValidPair(p: ClusteringParameters, a: SvCallRecord, b: SvCallRecord)
  {
    match p.pairClass
    case DepthOnlyPair => a.isDepthOnly && b.isDepthOnly
    case MixedPair => a.isDepthOnly != b.isDepthOnly
    case EvidencePair => !a.isDepthOnly && !b.isDepthOnly
  }

  /** Depth-only/depth-only sets accept overlap OR proximity. */
  function CreateDepthParameters(reciprocalOverlap: real, window: int, sampleOverlap: real): (p: ClusteringParameters)
    requires 0.0 <= reciprocalOverlap <= 1.0 && window >= 0 && 0.0 <= sampleOverlap <= 1.0
    ensures p.reciprocalOverlap == reciprocalOverlap && p.window == window && p.sampleOverlap == sampleOverlap
    ensures Valid(p) && !p.requiresOverlapAndProximity
    ensures forall a, b :: IsValidPair(p, a, b) <==> a.isDepthOnly && b.isDepthOnly
  {
    ClusteringParameters(reciprocalOverlap, window, sampleOverlap, false, DepthOnlyPair)
  }

  /** Depth-only/evidence sets need overlap AND proximity. */
  function CreateMixedParameters(reciprocalOverlap: real, window: int, sampleOverlap: real): (p: ClusteringParameters)
    requires 0.0 <= reciprocalOverlap <= 1.0 && window >= 0 && 0.0 <= sampleOverlap <= 1.0
    ensures p.reciprocalOverlap == reciprocalOverlap && p.window == window && p.sampleOverlap == sampleOverlap
    ensures Valid(p) && p.requiresOverlapAndProximity
    ensures forall a, b :: IsValidPair(p, a, b) <==> a.isDepthOnly != b.isDepthOnly
  {
    ClusteringParameters(reciprocalOverlap, window, sampleOverlap, true, MixedPair)
  }

  /** Evidence/evidence sets need overlap AND proximity. */
  function CreatePesrParameters(reciprocalOverlap: real, window: int, sampleOverlap: real): (p: ClusteringParameters)
    requires 0.0 <= reciprocalOverlap <= 1.0 && window >= 0 && 0.0 <= sampleOverlap <= 1.0
    ensures p.reciprocalOverlap == reciprocalOverlap && p.window == window && p.sampleOverlap == sampleOverlap
    ensures Valid(p) && p.requiresOverlapAndProximity
    ensures forall a, b :: IsValidPair(p, a, b) <==> !a.isDepthOnly && !b.isDepthOnly
  {
    ClusteringParameters(reciprocalOverlap, window, sampleOverlap, true, EvidencePair)
  }

  /** The pairing class of a record pair, from the two evidence classes. */
  function PairClassOf(a: SvCallRecord, b: SvCallRecord): PairClass
  {
    if a.isDepthOnly && b.isDepthOnly then DepthOnlyPair
    else if a.isDepthOnly != b.isDepthOnly then MixedPair
    else EvidencePair
  }

  /** Every record pair is claimed by exactly one pairing class: a set claims
      the pair if and only if its class is the pair's class. */
  lemma ExactlyOnePairClass(a: SvCallRecord, b: SvCallRecord, p: ClusteringParameters)
    ensures IsValidPair(p, a, b) <==> p.pairClass == PairClassOf(a, b)
  {
  }
}
