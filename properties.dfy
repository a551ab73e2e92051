/** Properties of the linkage decision and of the sweep look-ahead bound. */
module LinkageProperties {
  import opened Intervals
  import opened Records
  import opened Parameters
  import opened Linkage

  // ---------------------------------------------------------------------
  // Combinator semantics of the pairwise test

  /** Under an OR set, reciprocal overlap of an intrachromosomal pair settles
      the test, whatever the window, the breakends and the carriers. */
  lemma OrOverlapSuffices(a: SvCallRecord, b: SvCallRecord, params: ClusteringParameters, dictionary: SequenceDictionary)
    requires Valid(params) && a.contigA in dictionary && a.contigB in dictionary
    requires a.contigA == b.contigA && a.contigB == b.contigB && a.IsIntrachromosomal()
    requires !params.requiresOverlapAndProximity
    requires HasReciprocalOverlap(a, b, params.reciprocalOverlap)
    ensures ClusterTogetherWithParams(a, b, params, dictionary)
  {
  }

  /** Under an AND set, an intrachromosomal pair with reciprocal overlap
      clusters exactly when the breakends are close and the carriers agree. */
  lemma AndOverlapThenProximityAndSamples(a: SvCallRecord, b: SvCallRecord, params: ClusteringParameters,
                                          dictionary: SequenceDictionary)
    requires Valid(params) && a.contigA in dictionary && a.contigB in dictionary
    requires a.contigA == b.contigA && a.contigB == b.contigB && a.IsIntrachromosomal()
    requires params.requiresOverlapAndProximity
    requires HasReciprocalOverlap(a, b, params.reciprocalOverlap)
    ensures ClusterTogetherWithParams(a, b, params, dictionary)
            <==> BreakendsProximate(a, b, params.window, dictionary) && HasSampleOverlap(a, b, params.sampleOverlap)
  {
  }

  /** An inter-chromosomal pair skips the overlap test: it clusters exactly
      when the breakends are close and the carriers agree. */
  lemma InterchromosomalSkipsOverlap(a: SvCallRecord, b: SvCallRecord, params: ClusteringParameters,
                                     dictionary: SequenceDictionary)
    requires Valid(params) && a.contigA in dictionary && a.contigB in dictionary
    requires a.contigA == b.contigA && a.contigB == b.contigB && !a.IsIntrachromosomal()
    ensures ClusterTogetherWithParams(a, b, params, dictionary)
            <==> BreakendsProximate(a, b, params.window, dictionary) && HasSampleOverlap(a, b, params.sampleOverlap)
  {
  }

  /** Under an OR set, a pair with matching contigs clusters when either
      the intrachromosomal reciprocal overlap holds, or both breakend
      proximity and sample overlap hold. */
  lemma OrEitherSuffices(a: SvCallRecord, b: SvCallRecord, params: ClusteringParameters, dictionary: SequenceDictionary)
    requires Valid(params) && a.contigA in dictionary && a.contigB in dictionary
    requires a.contigA == b.contigA && a.contigB == b.contigB
    requires !params.requiresOverlapAndProximity
    ensures ClusterTogetherWithParams(a, b, params, dictionary)
            <==> || (a.IsIntrachromosomal() && HasReciprocalOverlap(a, b, params.reciprocalOverlap))
                 || (BreakendsProximate(a, b, params.window, dictionary) && HasSampleOverlap(a, b, params.sampleOverlap))
  {
  }

  /** Breakend proximity is a distance test: b's breakends lie on a's contigs
      and each is at most `window` positions from a's. */
  lemma {:induction false} ProximityIsDistance(a: SvCallRecord, b: SvCallRecord, window: int, dictionary: SequenceDictionary)
    requires a.contigA in dictionary && a.contigB in dictionary && window >= 0
    requires a.contigA == b.contigA && a.contigB == b.contigB
    ensures BreakendsProximate(a, b, window, dictionary)
            <==> && 1 <= b.positionA <= dictionary[a.contigA] && a.positionA - window <= b.positionA <= a.positionA + window
                 && 1 <= b.positionB <= dictionary[a.contigB] && a.positionB - window <= b.positionB <= a.positionB + window
  {
    ExpandedPointContains(a.contigA, a.positionA, b.positionA, window, dictionary[a.contigA]);
    ExpandedPointContains(a.contigB, a.positionB, b.positionB, window, dictionary[a.contigB]);
  }

  // ---------------------------------------------------------------------
  // The engine's decision

  /** In an engine whose fields hold sets of their own classes, some field
      claims every pair, so the final "no set applies" branch is never taken. */
  lemma StandardEngineClaimsEveryPair(link: CanonicalSVLinkage, a: SvCallRecord, b: SvCallRecord)
    requires link.StandardClasses()
    ensures IsValidPair(link.ParamsFor(PairClassOf(a, b)), a, b)
    ensures IsValidPair(link.evidenceParams, a, b) || IsValidPair(link.mixedParams, a, b) || IsValidPair(link.depthOnlyParams, a, b)
  {
    ExactlyOnePairClass(a, b, link.ParamsFor(PairClassOf(a, b)));
  }

  /** In such an engine, two records cluster exactly when their kinds are
      compatible, their strands agree, and the pairwise test holds under the
      set of the pair's evidence classes. */
  lemma {:induction false} AreClusterableCharacterized(link: CanonicalSVLinkage, a: SvCallRecord, b: SvCallRecord)
    requires link.Valid() && link.StandardClasses()
    requires a.contigA in link.dictionary && a.contigB in link.dictionary
    ensures link.AreClusterable(a, b)
            <==> && TypesCompatible(a, b, link.enableCnv)
                 && a.strandA == b.strandA && a.strandB == b.strandB
                 && ClusterTogetherWithParams(a, b, link.ParamsFor(PairClassOf(a, b)), link.dictionary)
  {
    ExactlyOnePairClass(a, b, link.evidenceParams);
    ExactlyOnePairClass(a, b, link.mixedParams);
    ExactlyOnePairClass(a, b, link.depthOnlyParams);
  }

  // ---------------------------------------------------------------------
  // Carrier-sample overlap

  lemma SampleOverlapSymmetric(a: SvCallRecord, b: SvCallRecord, minSampleOverlap: real)
    ensures HasSampleOverlap(a, b, minSampleOverlap) == HasSampleOverlap(b, a, minSampleOverlap)
  {
    assert a.carrierSamples * b.carrierSamples == b.carrierSamples * a.carrierSamples;
  }

  /** Records with the same carriers pass any threshold up to 1. */
  lemma SameCarriersPass(a: SvCallRecord, b: SvCallRecord, minSampleOverlap: real)
    requires a.carrierSamples == b.carrierSamples && minSampleOverlap <= 1.0
    ensures HasSampleOverlap(a, b, minSampleOverlap)
  {
    var s := a.carrierSamples;
    assert s * s == s;
    if minSampleOverlap > 0.0 && s != {} {
      assert minSampleOverlap * |s| as real <= |s| as real;
    }
  }

  /** Records with disjoint, not both empty, carrier sets fail any positive threshold. */
  lemma DisjointCarriersFail(a: SvCallRecord, b: SvCallRecord, minSampleOverlap: real)
    requires a.carrierSamples * b.carrierSamples == {} && (a.carrierSamples != {} || b.carrierSamples != {})
    requires minSampleOverlap > 0.0
    ensures !HasSampleOverlap(a, b, minSampleOverlap)
  {
    var m := Max(|a.carrierSamples|, |b.carrierSamples|);
    assert m >= 1;
    assert minSampleOverlap * m as real > 0.0;
  }

  // ---------------------------------------------------------------------
  // Symmetry

  /** The pairwise test does not depend on which record comes first, for
      records whose breakends lie within their contigs. */
  lemma {:induction false} ClusterTogetherSymmetric(a: SvCallRecord, b: SvCallRecord, params: ClusteringParameters,
                                                    dictionary: SequenceDictionary)
    requires Valid(params) && OnDictionary(a, dictionary) && OnDictionary(b, dictionary)
    ensures ClusterTogetherWithParams(a, b, params, dictionary) == ClusterTogetherWithParams(b, a, params, dictionary)
  {
    SampleOverlapSymmetric(a, b, params.sampleOverlap);
    if a.contigA == b.contigA && a.contigB == b.contigB {
      ProximityIsDistance(a, b, params.window, dictionary);
      ProximityIsDistance(b, a, params.window, dictionary);
      if a.IsIntrachromosomal() {
        ReciprocalOverlapSymmetric(OverlapInterval(a), OverlapInterval(b), params.reciprocalOverlap);
      }
    }
  }

  lemma {:induction false} AreClusterableSymmetric(link: CanonicalSVLinkage, a: SvCallRecord, b: SvCallRecord)
    requires link.Valid() && OnDictionary(a, link.dictionary) && OnDictionary(b, link.dictionary)
    ensures link.AreClusterable(a, b) == link.AreClusterable(b, a)
  {
    ClusterTogetherSymmetric(a, b, link.evidenceParams, link.dictionary);
    ClusterTogetherSymmetric(a, b, link.mixedParams, link.dictionary);
    ClusterTogetherSymmetric(a, b, link.depthOnlyParams, link.dictionary);
  }

  // ---------------------------------------------------------------------
  // The sweep look-ahead bound

  /** Under thresholds and windows that construction accepts, a per-set bound
      lies between the record's own start and the end of its contig. */
  lemma PerSetBoundWithinContig(call: SvCallRecord, params: ClusteringParameters, dictionary: SequenceDictionary)
    requires Valid(params) && call.contigA in dictionary && 1 <= call.positionA <= dictionary[call.contigA]
    ensures call.positionA <= MaxClusterableStartingPositionWithParamsAsWritten(call, params, dictionary) <= dictionary[call.contigA]
    ensures call.positionA <= MaxClusterableStartingPositionWithParams(call, params, dictionary) <= dictionary[call.contigA]
  {
    if call.IsIntrachromosomal() {
      var l := LengthForOverlap(call);
      assert (1.0 - params.reciprocalOverlap) * l as real >= 0.0;
    }
  }

  lemma EngineBoundWithinContig(link: CanonicalSVLinkage, rec: SvCallRecord)
    requires link.Valid() && rec.contigA in link.dictionary && 1 <= rec.positionA <= link.dictionary[rec.contigA]
    ensures rec.positionA <= link.MaxClusterableStartingPosition(rec) <= link.dictionary[rec.contigA]
  {
    PerSetBoundWithinContig(rec, link.mixedParams, link.dictionary);
    PerSetBoundWithinContig(rec, if rec.isDepthOnly then link.depthOnlyParams else link.evidenceParams, link.dictionary);
  }

  /** Reciprocal overlap caps how far past `a` the record `b` may start. */
  lemma {:induction false} ReciprocalOverlapBoundsStart(a: SvCallRecord, b: SvCallRecord, fraction: real)
    requires a.IsIntrachromosomal() && b.IsIntrachromosomal() && 0.0 <= fraction <= 1.0
    requires HasReciprocalOverlap(a, b, fraction)
    ensures b.positionA as real <= a.positionA as real + (1.0 - fraction) * LengthForOverlap(a) as real
  {
    var la := LengthForOverlap(a) as real;
    assert (1.0 - fraction) * la == la - fraction * la;
    assert fraction * la <= la;
    if b.positionA > a.positionA {
      var shared := IntersectionSize(OverlapInterval(a), OverlapInterval(b));
      assert shared <= a.positionA + LengthForOverlap(a) - b.positionA;
      assert shared as real >= la * fraction;
    }
  }

  /** A record in reciprocal overlap with `call`, on its contig, starts no
      later than the overlap reach. */
  lemma {:induction false} OverlapWithinOverlapReach(call: SvCallRecord, s: SvCallRecord, params: ClusteringParameters,
                                                     contigLength: int)
    requires Valid(params) && call.IsIntrachromosomal() && s.IsIntrachromosomal() && 1 <= call.positionA
    requires s.positionA <= contigLength
    requires HasReciprocalOverlap(call, s, params.reciprocalOverlap)
    ensures s.positionA <= MaxPositionByOverlap(call, params, contigLength)
  {
    ReciprocalOverlapBoundsStart(call, s, params.reciprocalOverlap);
  }

  /** Soundness of one set's bound: a record that clusters with `call` under
      `params` starts no later than the bound. */
  lemma {:induction false} PerSetBoundSound(call: SvCallRecord, s: SvCallRecord, params: ClusteringParameters,
                                            dictionary: SequenceDictionary)
    requires Valid(params) && OnDictionary(call, dictionary) && OnDictionary(s, dictionary)
    requires ClusterTogetherWithParams(call, s, params, dictionary)
    ensures s.positionA <= MaxClusterableStartingPositionWithParams(call, params, dictionary)
  {
    var contigLength := dictionary[call.contigA];
    assert s.contigA == call.contigA && s.contigB == call.contigB;
    var overlapped := call.IsIntrachromosomal() && HasReciprocalOverlap(call, s, params.reciprocalOverlap);
    if overlapped {
      OverlapWithinOverlapReach(call, s, params, contigLength);
    }
    if !(overlapped && !params.requiresOverlapAndProximity) {
      ProximityIsDistance(call, s, params.window, dictionary);
    }
  }

  /** Sweep-bound soundness: with each field holding a set of its own class,
      no record clustering with `rec` starts past the engine's bound. */
  lemma {:induction false} SweepBoundSound(link: CanonicalSVLinkage, rec: SvCallRecord, s: SvCallRecord)
    requires link.Valid() && link.StandardClasses()
    requires OnDictionary(rec, link.dictionary) && OnDictionary(s, link.dictionary)
    requires link.AreClusterable(rec, s)
    ensures s.positionA <= link.MaxClusterableStartingPosition(rec)
  {
    if IsValidPair(link.evidenceParams, rec, s) {
      PerSetBoundSound(rec, s, link.evidenceParams, link.dictionary);
    } else if IsValidPair(link.mixedParams, rec, s) {
      PerSetBoundSound(rec, s, link.mixedParams, link.dictionary);
    } else {
      PerSetBoundSound(rec, s, link.depthOnlyParams, link.dictionary);
    }
  }

  /** The bound as written misses inter-chromosomal matches under AND sets:
      it returns the record's own start although the window admits a record
      one position further on. */
  lemma {:induction false} AsWrittenBoundMissesInterchromosomalMatch(call: SvCallRecord, params: ClusteringParameters,
                                                                     dictionary: SequenceDictionary)
    requires Valid(params) && params.requiresOverlapAndProximity && params.window >= 1
    requires OnDictionary(call, dictionary) && !call.IsIntrachromosomal()
    requires call.positionA < dictionary[call.contigA]
    ensures var s := call.(positionA := call.positionA + 1);
            && ClusterTogetherWithParams(call, s, params, dictionary)
            && s.positionA > MaxClusterableStartingPositionWithParamsAsWritten(call, params, dictionary)
  {
    var s := call.(positionA := call.positionA + 1);
    ProximityIsDistance(call, s, params.window, dictionary);
    SameCarriersPass(call, s, params.sampleOverlap);
  }

  /** A concrete case under the default sets: an evidence-based breakend pair
      joining chr1 and chr2, and a second one 100 bases further along chr1. */
  lemma DefaultEngineMissesTranslocationMatch()
    ensures var dictionary := map["chr1" := 10000, "chr2" := 20000];
            var r := SvCallRecord(Bnd, "chr1", 5000, true, "chr2", 7000, false, -1, false, {"s1"});
            var s := r.(positionA := 5100);
            && ClusterTogetherWithParams(r, s, DefaultPesrParams, dictionary)
            && s.positionA > Max(MaxClusterableStartingPositionWithParamsAsWritten(r, DefaultPesrParams, dictionary),
                                 MaxClusterableStartingPositionWithParamsAsWritten(r, DefaultMixedParams, dictionary))
  {
    var dictionary := map["chr1" := 10000, "chr2" := 20000];
    var r := SvCallRecord(Bnd, "chr1", 5000, true, "chr2", 7000, false, -1, false, {"s1"});
    assert "chr1"[3] != "chr2"[3];
    var s := r.(positionA := 5100);
    ProximityIsDistance(r, s, DefaultPesrParams.window, dictionary);
  }

  // ---------------------------------------------------------------------
  // Worked example under the default depth-only set

  /** Two deletions at 1000 (length 1000) and 1100 (length 950) share 900
      bases, enough for the 0.8 threshold; shortening the second to 200
      bases leaves too little overlap, and the zero window rejects it. */
  lemma DepthOnlyDefaultsExample()
    ensures var dictionary := map["chr1" := 100000];
            var a := SvCallRecord(Del, "chr1", 1000, true, "chr1", 2000, false, 1000, true, {});
            var b := SvCallRecord(Del, "chr1", 1100, true, "chr1", 2050, false, 950, true, {});
            && ClusterTogetherWithParams(a, b, DefaultDepthOnlyParams, dictionary)
            && !ClusterTogetherWithParams(a, b.(positionB := 1300, length := 200), DefaultDepthOnlyParams, dictionary)
  {
  }

  /** The default sets are the ones the factories build, and each is valid. */
  lemma DefaultsValid()
    ensures Valid(DefaultDepthOnlyParams) && !DefaultDepthOnlyParams.requiresOverlapAndProximity
    ensures Valid(DefaultMixedParams) && DefaultMixedParams.requiresOverlapAndProximity
    ensures Valid(DefaultPesrParams) && DefaultPesrParams.requiresOverlapAndProximity
  {
  }
}
