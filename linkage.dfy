/** The canonical SV linkage: decides whether two SV call records describe the
    same event, and bounds how far ahead a sorted sweep must look for records
    that can still cluster with a given one. */
module Linkage {
  import opened Intervals
  import opened Records
  import opened Parameters

  /** Overlap length assumed for an insertion whose length is undefined. */
  const InsertionAssumedLengthForOverlap: int := 50

  const DefaultReciprocalOverlapDepthOnly: real := 0.8
  const DefaultWindowDepthOnly: int := 0
  const DefaultSampleOverlapDepthOnly: real := 0.0

  const DefaultReciprocalOverlapMixed: real := 0.8
  const DefaultWindowMixed: int := 1000
  const DefaultSampleOverlapMixed: real := 0.0

  const DefaultReciprocalOverlapPesr: real := 0.5
  const DefaultWindowPesr: int := 500
  const DefaultSampleOverlapPesr: real := 0.0

  const DefaultDepthOnlyParams: ClusteringParameters :=
    CreateDepthParameters(DefaultReciprocalOverlapDepthOnly, DefaultWindowDepthOnly, DefaultSampleOverlapDepthOnly)
  const DefaultMixedParams: ClusteringParameters :=
    CreateMixedParameters(DefaultReciprocalOverlapMixed, DefaultWindowMixed, DefaultSampleOverlapMixed)
  const DefaultPesrParams: ClusteringParameters :=
    CreatePesrParameters(DefaultReciprocalOverlapPesr, DefaultWindowPesr, DefaultSampleOverlapPesr)

  /** Java's (int) cast of a double: truncation toward zero. */
  function IntCast(x: real): (n: int)
    ensures x >= 0.0 ==> n as real <= x < n as real + 1.0
    ensures x < 0.0 ==> n as real - 1.0 < x <= n as real
  {
    if x >= 0.0 then x.Floor else -((-x).Floor)
  }

  // ---------------------------------------------------------------------
  // Carrier-sample overlap

  /** Reference definition of sufficient carrier overlap, free of division:
      both sets empty, or the shared carriers are at least `minSampleOverlap`
      of the larger set. */
  predicate CarriersOverlapEnough(samplesA: set<string>, samplesB: set<string>, minSampleOverlap: real)
  {
    || (samplesA == {} && samplesB == {})
    || |samplesA * samplesB| as real >= minSampleOverlap * Max(|samplesA|, |samplesB|) as real
  }

  /** Number of carriers of `a` that are also in `b`, counted one by one: the
      imperative form of the shared-carrier count that HasSampleSetOverlap
      uses as |samplesA * samplesB|. */
  method SampleSetOverlap(a: set<string>, b: set<string>) returns (count: nat)
    ensures count == |a * b|
  {
    count := 0;
    var remaining := a;
    while remaining != {}
      invariant remaining <= a
      invariant count == |(a - remaining) * b|
      decreases |remaining|
    {
      var s :| s in remaining;
      ghost var done := (a - remaining) * b;
      if s in b {
        count := count + 1;
        assert (a - (remaining - {s})) * b == done + {s};
      } else {
        assert (a - (remaining - {s})) * b == done;
      }
      remaining := remaining - {s};
    }
  }

  lemma ScaledAtLeast(x: real, d: real, m: real)
    requires d > 0.0
    ensures x / d >= m <==> x >= m * d
  {
    assert x == (x / d) * d;
    if x / d >= m {
      assert (x / d) * d >= m * d;
    } else {
      assert (x / d) * d < m * d;
    }
  }

  /** Fractional overlap of two carrier sets; passes when both are empty. */
  function HasSampleSetOverlap(samplesA: set<string>, samplesB: set<string>, minSampleOverlap: real): (r: bool)
    ensures r <==> CarriersOverlapEnough(samplesA, samplesB, minSampleOverlap)
  {
    var denom := Max(|samplesA|, |samplesB|);
    if denom == 0 then
      true
    else
      var ok := (|samplesA * samplesB| as real) / (denom as real) >= minSampleOverlap;
      ScaledAtLeast(|samplesA * samplesB| as real, denom as real, minSampleOverlap);
      ok
  }

  /** The sample test of a pair: skipped unless the threshold is positive. */
  function HasSampleOverlap(a: SvCallRecord, b: SvCallRecord, minSampleOverlap: real): (r: bool)
    ensures r <==> minSampleOverlap <= 0.0 || CarriersOverlapEnough(a.carrierSamples, b.carrierSamples, minSampleOverlap)
  {
    if minSampleOverlap > 0.0 then
      HasSampleSetOverlap(a.carrierSamples, b.carrierSamples, minSampleOverlap)
    else
      true
  }

  // ---------------------------------------------------------------------
  // Pairwise test under one parameter set

  /** Event length used for the overlap test. */
  function LengthForOverlap(rec: SvCallRecord): (n: int)
    requires rec.IsIntrachromosomal()
    ensures n >= 1
    ensures rec.length >= 1 ==> n == rec.length
    ensures rec.length < 1 && rec.svType == Ins ==> n == InsertionAssumedLengthForOverlap
    ensures rec.length < 1 && rec.svType != Ins ==> n == 1
  {
    if rec.svType == Ins then
      (if rec.length < 1 then InsertionAssumedLengthForOverlap else rec.length)
    else
      Max(rec.length, 1)
  }

  /** The interval starting at breakend A that the overlap test compares. */
  function OverlapInterval(rec: SvCallRecord): (i: Interval)
    requires rec.IsIntrachromosomal()
    ensures i.contig == rec.contigA && i.start == rec.positionA && Size(i) == LengthForOverlap(rec)
  {
    Interval(rec.contigA, rec.positionA, rec.positionA + LengthForOverlap(rec) - 1)
  }

  /** Reciprocal overlap of the two records' overlap intervals. */
  predicate HasReciprocalOverlap(a: SvCallRecord, b: SvCallRecord, fraction: real)
    requires a.IsIntrachromosomal() && b.IsIntrachromosomal()
  {
    IsReciprocalOverlap(OverlapInterval(a), OverlapInterval(b), fraction)
  }

  /** b's breakends fall inside a's breakends widened by `window`, trimmed to the contigs. */
  predicate BreakendsProximate(a: SvCallRecord, b: SvCallRecord, window: int, dictionary: SequenceDictionary)
    requires a.contigA in dictionary && a.contigB in dictionary && window >= 0
  {
    && Overlaps(ExpandWithinContig(a.PositionAInterval(), window, dictionary[a.contigA]), b.PositionAInterval())
    && Overlaps(ExpandWithinContig(a.PositionBInterval(), window, dictionary[a.contigB]), b.PositionBInterval())
  }

  /** Contig match, then reciprocal overlap (intrachromosomal only) combined
      by the set's combinator, then breakend proximity, then sample overlap. */
  function ClusterTogetherWithParams(a: SvCallRecord, b: SvCallRecord, params: ClusteringParameters,
                                     dictionary: SequenceDictionary): (r: bool)
    requires Valid(params)
    requires a.contigA in dictionary && a.contigB in dictionary
    ensures r ==> a.contigA == b.contigA && a.contigB == b.contigB
    ensures r && a.IsIntrachromosomal() && params.requiresOverlapAndProximity ==> HasReciprocalOverlap(a, b, params.reciprocalOverlap)
    ensures r && !(a.IsIntrachromosomal() && !params.requiresOverlapAndProximity && HasReciprocalOverlap(a, b, params.reciprocalOverlap))
            ==> BreakendsProximate(a, b, params.window, dictionary) && HasSampleOverlap(a, b, params.sampleOverlap)
  {
    if !(a.contigA == b.contigA && a.contigB == b.contigB) then
      false
    else if a.IsIntrachromosomal() && params.requiresOverlapAndProximity
            && !HasReciprocalOverlap(a, b, params.reciprocalOverlap) then
      false
    else if a.IsIntrachromosomal() && !params.requiresOverlapAndProximity
            && HasReciprocalOverlap(a, b, params.reciprocalOverlap) then
      true
    else if !BreakendsProximate(a, b, params.window, dictionary) then
      false
    else
      HasSampleOverlap(a, b, params.sampleOverlap)
  }

  // ---------------------------------------------------------------------
  // Sweep look-ahead bound under one parameter set

  /** Furthest start allowed by reciprocal overlap: breakend A plus the
      unshared share of the overlap length, trimmed to the contig; an
      inter-chromosomal record has no overlap test and reaches only itself. */
  function MaxPositionByOverlap(call: SvCallRecord, params: ClusteringParameters, contigLength: int): (n: int)
    ensures call.IsIntrachromosomal() && 1 <= call.positionA && params.reciprocalOverlap <= 1.0 ==>
              var reach := call.positionA as real + (1.0 - params.reciprocalOverlap) * LengthForOverlap(call) as real;
              && n <= contigLength && n as real <= reach
              && (n == contigLength || reach < n as real + 1.0)
    ensures !call.IsIntrachromosomal() ==> n == call.positionA
  {
    if call.IsIntrachromosomal() then
      var maxPosition := IntCast(call.positionA as real
                                 + (1.0 - params.reciprocalOverlap) * LengthForOverlap(call) as real);
      Min(maxPosition, contigLength)
    else
      call.positionA
  }

  /** Furthest start allowed by breakend proximity, trimmed to the contig. */
  function MaxPositionByWindow(call: SvCallRecord, params: ClusteringParameters, contigLength: int): (n: int)
    ensures n <= contigLength && n <= call.positionA + params.window
    ensures n == contigLength || n == call.positionA + params.window
  {
    Min(call.positionA + params.window, contigLength)
  }

  /** The per-set bound exactly as the engine computes it: the tighter of the
      two reaches under AND, the looser under OR. */
  function MaxClusterableStartingPositionWithParamsAsWritten(call: SvCallRecord, params: ClusteringParameters,
                                                             dictionary: SequenceDictionary): (n: int)
    requires call.contigA in dictionary
    ensures var byOverlap := MaxPositionByOverlap(call, params, dictionary[call.contigA]);
            var byWindow := MaxPositionByWindow(call, params, dictionary[call.contigA]);
            if params.requiresOverlapAndProximity then n <= byOverlap && n <= byWindow && (n == byOverlap || n == byWindow)
            else n >= byOverlap && n >= byWindow && (n == byOverlap || n == byWindow)
  {
    var contigLength := dictionary[call.contigA];
    var byOverlap := MaxPositionByOverlap(call, params, contigLength);
    var byWindow := MaxPositionByWindow(call, params, contigLength);
    if params.requiresOverlapAndProximity then Min(byOverlap, byWindow) else Max(byOverlap, byWindow)
  }

  /** The per-set bound with the overlap reach used as a limit only where the
      overlap test applies: an inter-chromosomal record is reached by the
      window alone. */
  function MaxClusterableStartingPositionWithParams(call: SvCallRecord, params: ClusteringParameters,
                                                    dictionary: SequenceDictionary): (n: int)
    requires call.contigA in dictionary
    ensures var byOverlap := MaxPositionByOverlap(call, params, dictionary[call.contigA]);
            var byWindow := MaxPositionByWindow(call, params, dictionary[call.contigA]);
            if params.requiresOverlapAndProximity && call.IsIntrachromosomal() then
              n <= byOverlap && n <= byWindow && (n == byOverlap || n == byWindow)
            else
              n >= byOverlap && n >= byWindow && (n == byOverlap || n == byWindow)
  {
    var contigLength := dictionary[call.contigA];
    var byOverlap := MaxPositionByOverlap(call, params, contigLength);
    var byWindow := MaxPositionByWindow(call, params, contigLength);
    if params.requiresOverlapAndProximity && call.IsIntrachromosomal() then Min(byOverlap, byWindow)
    else Max(byOverlap, byWindow)
  }

  /** Event kinds are compatible: equal, or both copy-number kinds with CNV mixing on. */
  predicate TypesCompatible(a: SvCallRecord, b: SvCallRecord, enableCnv: bool)
  {
    a.svType == b.svType || (enableCnv && a.IsCnv() && b.IsCnv())
  }

  // ---------------------------------------------------------------------
  // The engine

  class CanonicalSVLinkage {
    const dictionary: SequenceDictionary
    /** Allows DEL/DUP/CNV records of different kinds to cluster. */
    const enableCnv: bool
    var depthOnlyParams: ClusteringParameters
    var mixedParams: ClusteringParameters
    var evidenceParams: ClusteringParameters

    /** Every parameter set held is one that construction accepts. */
    predicate Valid()
      reads this
    {
      Parameters.Valid(depthOnlyParams) && Parameters.Valid(mixedParams) && Parameters.Valid(evidenceParams)
    }

    /** Each field holds a set of the pairing class it is named for. */
    predicate StandardClasses()
      reads this
    {
      && depthOnlyParams.pairClass == DepthOnlyPair
      && mixedParams.pairClass == MixedPair
      && evidenceParams.pairClass == EvidencePair
    }

    constructor (dictionary: SequenceDictionary, enableCnv: bool)
      ensures this.dictionary == dictionary && this.enableCnv == enableCnv
      ensures depthOnlyParams == DefaultDepthOnlyParams
      ensures mixedParams == DefaultMixedParams
      ensures evidenceParams == DefaultPesrParams
      ensures Valid() && StandardClasses()
    {
      this.dictionary := dictionary;
      this.depthOnlyParams := DefaultDepthOnlyParams;
      this.mixedParams := DefaultMixedParams;
      this.evidenceParams := DefaultPesrParams;
      this.enableCnv := enableCnv;
    }

    /** Type gate, strand gate, then the pairwise test under the set that
        claims the pair: evidence first, then mixed, then depth-only. */
    function AreClusterable(a: SvCallRecord, b: SvCallRecord): (r: bool)
      reads this
      requires Valid()
      requires a.contigA in dictionary && a.contigB in dictionary
      ensures r ==> TypesCompatible(a, b, enableCnv)
      ensures r ==> a.strandA == b.strandA && a.strandB == b.strandB
      ensures r ==> a.contigA == b.contigA && a.contigB == b.contigB
      ensures r ==> IsValidPair(evidenceParams, a, b) || IsValidPair(mixedParams, a, b) || IsValidPair(depthOnlyParams, a, b)
      ensures TypesCompatible(a, b, enableCnv) && a.strandA == b.strandA && a.strandB == b.strandB ==>
                if IsValidPair(evidenceParams, a, b) then r == ClusterTogetherWithParams(a, b, evidenceParams, dictionary)
                else if IsValidPair(mixedParams, a, b) then r == ClusterTogetherWithParams(a, b, mixedParams, dictionary)
                else if IsValidPair(depthOnlyParams, a, b) then r == ClusterTogetherWithParams(a, b, depthOnlyParams, dictionary)
                else !r
    {
      if a.svType != b.svType && !enableCnv then
        false
      else if a.svType != b.svType && !(a.IsCnv() && b.IsCnv()) then
        false
      else if a.strandA != b.strandA || a.strandB != b.strandB then
        false
      else if IsValidPair(evidenceParams, a, b) then
        ClusterTogetherWithParams(a, b, evidenceParams, dictionary)
      else if IsValidPair(mixedParams, a, b) then
        ClusterTogetherWithParams(a, b, mixedParams, dictionary)
      else if IsValidPair(depthOnlyParams, a, b) then
        ClusterTogetherWithParams(a, b, depthOnlyParams, dictionary)
      else
        false
    }

    /** The field named for pairing class `c`. */
    function ParamsFor(c: PairClass): (p: ClusteringParameters)
      reads this
      ensures StandardClasses() ==> p.pairClass == c
    {
      match c
      case DepthOnlyPair => depthOnlyParams
      case MixedPair => mixedParams
      case EvidencePair => evidenceParams
    }

    /** Sweep look-ahead bound: the larger of the bounds under the record's
        own-class set and under the mixed set. */
    function MaxClusterableStartingPosition(rec: SvCallRecord): (n: int)
      reads this
      requires rec.contigA in dictionary
      ensures n >= MaxClusterableStartingPositionWithParams(rec, if rec.isDepthOnly then depthOnlyParams else evidenceParams, dictionary)
      ensures n >= MaxClusterableStartingPositionWithParams(rec, mixedParams, dictionary)
      ensures n == MaxClusterableStartingPositionWithParams(rec, if rec.isDepthOnly then depthOnlyParams else evidenceParams, dictionary)
              || n == MaxClusterableStartingPositionWithParams(rec, mixedParams, dictionary)
    {
      Max(MaxClusterableStartingPositionWithParams(rec, if rec.isDepthOnly then depthOnlyParams else evidenceParams, dictionary),
          MaxClusterableStartingPositionWithParams(rec, mixedParams, dictionary))
    }

    method GetDepthOnlyParams() returns (p: ClusteringParameters)
      ensures p == depthOnlyParams
    {
      p := depthOnlyParams;
    }

    method GetMixedParams() returns (p: ClusteringParameters)
      ensures p == mixedParams
    {
      p := mixedParams;
    }

    method GetEvidenceParams() returns (p: ClusteringParameters)
      ensures p == evidenceParams
    {
      p := evidenceParams;
    }

    method SetDepthOnlyParams(p: ClusteringParameters)
      requires Valid() && Parameters.Valid(p)
      modifies this
      ensures Valid()
      ensures depthOnlyParams == p
      ensures mixedParams == old(mixedParams) && evidenceParams == old(evidenceParams)
    {
      depthOnlyParams := p;
    }

    method SetMixedParams(p: ClusteringParameters)
      requires Valid() && Parameters.Valid(p)
      modifies this
      ensures Valid()
      ensures mixedParams == p
      ensures depthOnlyParams == old(depthOnlyParams) && evidenceParams == old(evidenceParams)
    {
      mixedParams := p;
    }

    method SetEvidenceParams(p: ClusteringParameters)
      requires Valid() && Parameters.Valid(p)
      modifies this
      ensures Valid()
      ensures evidenceParams == p
      ensures depthOnlyParams == old(depthOnlyParams) && mixedParams == old(mixedParams)
    {
      evidenceParams := p;
    }
  }
}
