# Canonical SV linkage, modelled in Dafny

This project models the pairwise linkage engine that GATK's structural-variant
clustering uses (`CanonicalSVLinkage`). The engine has two jobs:

- `areClusterable(a, b)` decides whether two SV call records describe the same
  event. It checks, in this order:
  - event type, optionally letting DEL/DUP/CNV kinds mix;
  - exact strands;
  - the parameter set for the pair's evidence classes (evidence-based, then
    mixed, then depth-only);
  - under that set: matching contigs, reciprocal overlap of the event
    intervals (intrachromosomal records only), combined by AND or OR with
    breakend proximity, then carrier-sample overlap.
- `getMaxClusterableStartingPosition(record)` gives the sweep look-ahead
  bound. It is the furthest start a later record can have and still cluster
  with `record`.

Layout:

- `intervals.dfy` (module `Intervals`): closed 1-based intervals, overlap,
  intersection size, reciprocal overlap, and window expansion trimmed to the contig.
- `records.dfy` (module `Records`): the SV call record, its event kinds and
  the sequence dictionary (a `map<string, int>` from contig to length).
- `parameters.dfy` (module `Parameters`): clustering parameter sets, their
  pairing classes and their factories.
- `linkage.dfy` (module `Linkage`): the engine. The source's static helpers
  are module functions. The engine is the class `CanonicalSVLinkage`:
  - the dictionary and the CNV flag are constants;
  - the three parameter sets are fields that the setters replace wholesale.
- `properties.dfy` (module `LinkageProperties`): lemmas relating these.

Collaborators whose source is not part of this model are small explicit
stand-ins. Each says only what is written here:

- `SVCallRecord` is a datatype.
  - `isCNV` holds for DEL, DUP and CNV.
  - `isIntrachromosomal` means `contigA == contigB`.
  - Strands are booleans compared by value.
- `ClusteringParameters` holds a reciprocal-overlap threshold, a window, a
  sample-overlap threshold, the AND/OR flag and a pairing class.
  - `isValidPair` is decided by the pairing class: depth-only needs both
    records depth-only; mixed needs exactly one; evidence needs neither.
  - The factories demand thresholds in [0, 1] and a non-negative window. The
    engine therefore only ever holds sets satisfying `Parameters.Valid`, so
    the setters and the engine's functions require it.
- `IntervalUtils.isReciprocalOverlap` holds when the two intervals intersect
  and the intersection is at least the threshold times each interval's size.
  This uses reals and multiplication instead of division.
- `SimpleInterval.expandWithinContig` widens by the window on both sides and
  trims to `[1, contig length]`.
- `SimpleInterval.overlaps` means same contig and a shared position.
- The sequence dictionary lookup requires the contig to be present.
- `OnDictionary` says a record's breakends lie on dictionary contigs, within
  `[1, contig length]`. It is a hypothesis of the symmetry and bound lemmas,
  not a precondition of the engine.

## Model

| member | source | states |
|---|---|---|
| `Intervals.IntersectionSize` | src/main/java/org/broadinstitute/hellbender/tools/sv/cluster/CanonicalSVLinkage.java:163 | the shared part of two overlapping intervals is no larger than either interval, and is at least one position when both are non-empty |
| `Intervals.Range` | src/main/java/org/broadinstitute/hellbender/tools/sv/cluster/CanonicalSVLinkage.java:163 | the set of positions lo..hi: membership is exactly lo <= p <= hi, and its size is hi - lo + 1 |
| `Intervals.IntersectionSizeCountsShared` | src/main/java/org/broadinstitute/hellbender/tools/sv/cluster/CanonicalSVLinkage.java:163 | for non-empty overlapping intervals, the positions in both are exactly Range(later start, earlier end), and IntersectionSize is their number |
| `Intervals.ExpandWithinContig` | src/main/java/org/broadinstitute/hellbender/tools/sv/cluster/CanonicalSVLinkage.java:172-173 | the widened interval stays on the contig, within [1, contig length], and contains the original interval when that lies on the contig |
| `Intervals.ReciprocalOverlapSymmetric` | src/main/java/org/broadinstitute/hellbender/tools/sv/cluster/CanonicalSVLinkage.java:163 | reciprocal overlap does not depend on the order of the two intervals |
| `Intervals.ExpandedPointContains` | src/main/java/org/broadinstitute/hellbender/tools/sv/cluster/CanonicalSVLinkage.java:172-176 | a point is in the window-widened, contig-trimmed point p exactly when it is on the contig and at most `window` from p |
| `Intervals.Point` | src/main/java/org/broadinstitute/hellbender/tools/sv/cluster/CanonicalSVLinkage.java:174-175 | a breakend interval lies on the given contig, has size 1 and starts at the breakend |
| `Records.SvCallRecord.PositionAInterval` | src/main/java/org/broadinstitute/hellbender/tools/sv/cluster/CanonicalSVLinkage.java:172 | breakend A's interval is the single position A on contig A |
| `Records.SvCallRecord.PositionBInterval` | src/main/java/org/broadinstitute/hellbender/tools/sv/cluster/CanonicalSVLinkage.java:173 | breakend B's interval is the single position B on contig B |
| `Parameters.CreateDepthParameters` | src/main/java/org/broadinstitute/hellbender/tools/sv/cluster/CanonicalSVLinkage.java:55-59 | holds the given overlap threshold, window and sample threshold; a depth-only set is valid, accepts overlap OR proximity, and claims exactly the pairs of two depth-only records |
| `Parameters.CreateMixedParameters` | src/main/java/org/broadinstitute/hellbender/tools/sv/cluster/CanonicalSVLinkage.java:60-64 | holds the given overlap threshold, window and sample threshold; a mixed set is valid, needs overlap AND proximity, and claims exactly the pairs with one depth-only record |
| `Parameters.CreatePesrParameters` | src/main/java/org/broadinstitute/hellbender/tools/sv/cluster/CanonicalSVLinkage.java:65-69 | holds the given overlap threshold, window and sample threshold; an evidence set is valid, needs overlap AND proximity, and claims exactly the pairs of two evidence-based records |
| `Parameters.ExactlyOnePairClass` | src/main/java/org/broadinstitute/hellbender/tools/sv/cluster/CanonicalSVLinkage.java:102-110 | a set claims a pair if and only if its pairing class is the pair's class (from the two evidence classes), so every pair is claimed by exactly one class |
| `Linkage.IntCast` | src/main/java/org/broadinstitute/hellbender/tools/sv/cluster/CanonicalSVLinkage.java:216 | the `(int)` cast truncates toward zero: the floor for non-negative values, the ceiling for negative ones |
| `Linkage.SampleSetOverlap` | src/main/java/org/broadinstitute/hellbender/tools/sv/cluster/CanonicalSVLinkage.java:128-130 | counting the members of one set that the other contains yields the size of the intersection |
| `Linkage.ScaledAtLeast` | src/main/java/org/broadinstitute/hellbender/tools/sv/cluster/CanonicalSVLinkage.java:121-122 | comparing a quotient with a threshold is the same as comparing the numerator with threshold times denominator |
| `Linkage.HasSampleSetOverlap` | src/main/java/org/broadinstitute/hellbender/tools/sv/cluster/CanonicalSVLinkage.java:116-123 | passes exactly when both sets are empty or the shared carriers reach the threshold fraction of the larger set |
| `Linkage.HasSampleOverlap` | src/main/java/org/broadinstitute/hellbender/tools/sv/cluster/CanonicalSVLinkage.java:135-143 | passes exactly when the threshold is at most 0, or the carrier sets overlap enough |
| `Linkage.LengthForOverlap` | src/main/java/org/broadinstitute/hellbender/tools/sv/cluster/CanonicalSVLinkage.java:187-195 | needs an intrachromosomal record; always at least 1; a defined length (>= 1) is used as is; an undefined one counts as 50 for INS and 1 otherwise |
| `Linkage.OverlapInterval` | src/main/java/org/broadinstitute/hellbender/tools/sv/cluster/CanonicalSVLinkage.java:161-162 | the compared interval starts at breakend A and is as long as the overlap length |
| `Linkage.ClusterTogetherWithParams` | src/main/java/org/broadinstitute/hellbender/tools/sv/cluster/CanonicalSVLinkage.java:149-182 | a positive result implies both contigs match; under AND on an intrachromosomal pair it implies reciprocal overlap; unless settled by OR-overlap, it implies breakend proximity and sample overlap |
| `Linkage.MaxPositionByOverlap` | src/main/java/org/broadinstitute/hellbender/tools/sv/cluster/CanonicalSVLinkage.java:213-220 | intrachromosomal: the largest position not past the contig end nor past start + (1 - threshold) * overlap length; otherwise the record's own start |
| `Linkage.MaxPositionByWindow` | src/main/java/org/broadinstitute/hellbender/tools/sv/cluster/CanonicalSVLinkage.java:222-223 | the smaller of start + window and the contig length |
| `Linkage.MaxClusterableStartingPositionWithParamsAsWritten` | src/main/java/org/broadinstitute/hellbender/tools/sv/cluster/CanonicalSVLinkage.java:208-230 | the per-set bound as written: the minimum of the overlap and window reaches under AND, their maximum under OR |
| `Linkage.MaxClusterableStartingPositionWithParams` | src/main/java/org/broadinstitute/hellbender/tools/sv/cluster/CanonicalSVLinkage.java:208-230 | the corrected per-set bound: the minimum only under AND for an intrachromosomal record, the maximum otherwise (see Findings) |
| `Linkage.CanonicalSVLinkage.constructor` | src/main/java/org/broadinstitute/hellbender/tools/sv/cluster/CanonicalSVLinkage.java:76-84 | keeps the dictionary and CNV flag and installs the three default sets, each in the field of its own class |
| `Linkage.CanonicalSVLinkage.AreClusterable` | src/main/java/org/broadinstitute/hellbender/tools/sv/cluster/CanonicalSVLinkage.java:87-111 | a positive result implies compatible types (equal, or both CNV with mixing on), equal strands A and B, equal contigs A and B, and that some held set claims the pair; once the type and strand gates pass, the result is the pairwise test under the first set claiming the pair in the order evidence, mixed, depth-only, and false when none does |
| `Linkage.CanonicalSVLinkage.ParamsFor` | src/main/java/org/broadinstitute/hellbender/tools/sv/cluster/CanonicalSVLinkage.java:37-39 | with each field holding a set of its own class, the field for class c has class c |
| `Linkage.CanonicalSVLinkage.MaxClusterableStartingPosition` | src/main/java/org/broadinstitute/hellbender/tools/sv/cluster/CanonicalSVLinkage.java:197-203 | the larger of the bounds under the record's own-class set and under the mixed set |
| `Linkage.CanonicalSVLinkage.GetDepthOnlyParams` | src/main/java/org/broadinstitute/hellbender/tools/sv/cluster/CanonicalSVLinkage.java:232-234 | returns the depth-only set currently held |
| `Linkage.CanonicalSVLinkage.GetMixedParams` | src/main/java/org/broadinstitute/hellbender/tools/sv/cluster/CanonicalSVLinkage.java:235-237 | returns the mixed set currently held |
| `Linkage.CanonicalSVLinkage.GetEvidenceParams` | src/main/java/org/broadinstitute/hellbender/tools/sv/cluster/CanonicalSVLinkage.java:238-240 | returns the evidence set currently held |
| `Linkage.CanonicalSVLinkage.SetDepthOnlyParams` | src/main/java/org/broadinstitute/hellbender/tools/sv/cluster/CanonicalSVLinkage.java:242 | replaces the depth-only set; the other two are unchanged |
| `Linkage.CanonicalSVLinkage.SetMixedParams` | src/main/java/org/broadinstitute/hellbender/tools/sv/cluster/CanonicalSVLinkage.java:244-246 | replaces the mixed set; the other two are unchanged |
| `Linkage.CanonicalSVLinkage.SetEvidenceParams` | src/main/java/org/broadinstitute/hellbender/tools/sv/cluster/CanonicalSVLinkage.java:248-250 | replaces the evidence set; the other two are unchanged |
| `LinkageProperties.OrOverlapSuffices` | src/main/java/org/broadinstitute/hellbender/tools/sv/cluster/CanonicalSVLinkage.java:160-169 | under OR, reciprocal overlap of an intrachromosomal pair with matching contigs clusters it; proximity and samples are not consulted |
| `LinkageProperties.OrEitherSuffices` | src/main/java/org/broadinstitute/hellbender/tools/sv/cluster/CanonicalSVLinkage.java:158-181 | under OR, a pair with matching contigs clusters exactly when intrachromosomal reciprocal overlap holds, or proximity and sample overlap both hold |
| `LinkageProperties.AndOverlapThenProximityAndSamples` | src/main/java/org/broadinstitute/hellbender/tools/sv/cluster/CanonicalSVLinkage.java:160-181 | under AND, an overlapping intrachromosomal pair clusters exactly when proximity and sample overlap both hold |
| `LinkageProperties.InterchromosomalSkipsOverlap` | src/main/java/org/broadinstitute/hellbender/tools/sv/cluster/CanonicalSVLinkage.java:158-181 | an inter-chromosomal pair with matching contigs clusters exactly when proximity and sample overlap hold, whatever the overlap threshold |
| `LinkageProperties.ProximityIsDistance` | src/main/java/org/broadinstitute/hellbender/tools/sv/cluster/CanonicalSVLinkage.java:171-178 | the proximity test holds exactly when each of b's breakends is on the contig and within `window` of a's |
| `LinkageProperties.StandardEngineClaimsEveryPair` | src/main/java/org/broadinstitute/hellbender/tools/sv/cluster/CanonicalSVLinkage.java:102-110 | when each field holds a set of its own class, the field for the pair's class claims it, so the final `return false` is never reached |
| `LinkageProperties.AreClusterableCharacterized` | src/main/java/org/broadinstitute/hellbender/tools/sv/cluster/CanonicalSVLinkage.java:87-111 | in such an engine, two records cluster exactly when their kinds are compatible, both strands agree and the pairwise test holds under the set of the pair's evidence classes |
| `LinkageProperties.SampleOverlapSymmetric` | src/main/java/org/broadinstitute/hellbender/tools/sv/cluster/CanonicalSVLinkage.java:116-143 | the sample test does not depend on the order of the records |
| `LinkageProperties.SameCarriersPass` | src/main/java/org/broadinstitute/hellbender/tools/sv/cluster/CanonicalSVLinkage.java:116-143 | identical carrier sets pass every threshold up to 1, including when both are empty |
| `LinkageProperties.DisjointCarriersFail` | src/main/java/org/broadinstitute/hellbender/tools/sv/cluster/CanonicalSVLinkage.java:116-143 | disjoint carrier sets, not both empty, fail every positive threshold |
| `LinkageProperties.ClusterTogetherSymmetric` | src/main/java/org/broadinstitute/hellbender/tools/sv/cluster/CanonicalSVLinkage.java:149-182 | for records within their contigs, the pairwise test gives the same answer in either order, although only `a`'s breakends are widened |
| `LinkageProperties.AreClusterableSymmetric` | src/main/java/org/broadinstitute/hellbender/tools/sv/cluster/CanonicalSVLinkage.java:87-111 | for records within their contigs, `areClusterable(a, b) == areClusterable(b, a)`, whatever sets the fields hold |
| `LinkageProperties.PerSetBoundWithinContig` | src/main/java/org/broadinstitute/hellbender/tools/sv/cluster/CanonicalSVLinkage.java:208-230 | with 1 <= start <= contig length and a valid set, both per-set bounds lie in [start, contig length] |
| `LinkageProperties.EngineBoundWithinContig` | src/main/java/org/broadinstitute/hellbender/tools/sv/cluster/CanonicalSVLinkage.java:197-203 | the engine's bound lies in [start, contig length] |
| `LinkageProperties.ReciprocalOverlapBoundsStart` | src/main/java/org/broadinstitute/hellbender/tools/sv/cluster/CanonicalSVLinkage.java:161-163 | a record in reciprocal overlap with `a` starts no later than a's start + (1 - threshold) * a's overlap length |
| `LinkageProperties.OverlapWithinOverlapReach` | src/main/java/org/broadinstitute/hellbender/tools/sv/cluster/CanonicalSVLinkage.java:214-217 | such a record, lying on the contig, starts no later than the overlap reach after the integer cast and trimming |
| `LinkageProperties.PerSetBoundSound` | src/main/java/org/broadinstitute/hellbender/tools/sv/cluster/CanonicalSVLinkage.java:208-230 | every record that clusters with `call` under a set starts no later than the corrected per-set bound |
| `LinkageProperties.SweepBoundSound` | src/main/java/org/broadinstitute/hellbender/tools/sv/cluster/CanonicalSVLinkage.java:197-203 | when each field holds a set of its own class, every record clustering with `rec` starts no later than the engine's bound |
| `LinkageProperties.AsWrittenBoundMissesInterchromosomalMatch` | src/main/java/org/broadinstitute/hellbender/tools/sv/cluster/CanonicalSVLinkage.java:218-226 | under AND with window >= 1, an inter-chromosomal record clusters with its copy shifted one position, yet the as-written bound excludes that copy |
| `LinkageProperties.DefaultEngineMissesTranslocationMatch` | src/main/java/org/broadinstitute/hellbender/tools/sv/cluster/CanonicalSVLinkage.java:197-230 | with the default sets, a chr1-chr2 breakend pair clusters with one 100 bases further along, past the as-written engine bound |
| `LinkageProperties.DepthOnlyDefaultsExample` | src/main/java/org/broadinstitute/hellbender/tools/sv/cluster/CanonicalSVLinkage.java:160-178 | deletions of 1000 and 950 bases starting 100 apart cluster under the depth-only defaults; shortening the second to 200 bases does not |
| `LinkageProperties.DefaultsValid` | src/main/java/org/broadinstitute/hellbender/tools/sv/cluster/CanonicalSVLinkage.java:43-69 | the three default sets are valid; depth-only is OR, mixed and evidence are AND |

## Left out

- Integer width: coordinates, lengths and windows are unbounded integers. Java's 32-bit overflow of `positionA + window` and the saturation of `(int)` on large doubles are not modelled. Contig lengths fit in 31 bits.
- Floating point: thresholds and fractions are exact reals. IEEE rounding of `(1.0 - overlap) * length` and of `count / denom` is not reproduced.
- Null and exception paths are not modelled: a missing dictionary contig, a null record, and `expandWithinContig` returning null for a breakend off its contig. The engine's functions require a's contigs to be in the dictionary instead.
- `Linkage.CanonicalSVLinkage.SetDepthOnlyParams`, `SetMixedParams`, `SetEvidenceParams`: they require the new set to be valid. The Java setters do not check, but every `ClusteringParameters` that construction accepts is valid.
- The setters accept a set of any pairing class, as the Java setters do. Sweep-bound soundness is therefore proved only for engines whose fields hold sets of their own class (`StandardClasses`), which the constructor establishes.
- `Linkage.CanonicalSVLinkage.MaxClusterableStartingPosition` uses the corrected per-set bound; the as-written composition is kept as `MaxClusterableStartingPositionWithParamsAsWritten` (see Findings).
- Carrier-sample derivation from genotypes and copy numbers happens upstream: `carrierSamples` is a record field.
- Thread safety of the setters is not modelled; nothing here is concurrent.
- `GermlineCNVCaller.java` (command-line glue that spawns a Python process) and `ml4h/tensormap/gatk.py` (HDF5 and tensor I/O) are not part of this model.

## Findings

| source | as written | input that shows it | evidently intended | confidence | as-written member | corrected member |
|---|---|---|---|---|---|---|
| src/main/java/org/broadinstitute/hellbender/tools/sv/cluster/CanonicalSVLinkage.java:218-226 | for an inter-chromosomal record the overlap reach is `positionA`, and under an AND set the bound is `min(positionA, window reach) = positionA` | the default sets and an evidence-based BND from chr1:5000 to chr2:7000; a second identical BND at chr1:5100 clusters with it (window 500), but the bound is 5000 | the overlap reach should limit the bound only where the overlap test applies (intrachromosomal records). An inter-chromosomal record is reached by its window, so the bound never falls below a start that the proximity test admits | not executed; proved on the model | `LinkageProperties.AsWrittenBoundMissesInterchromosomalMatch` (about `Linkage.MaxClusterableStartingPositionWithParamsAsWritten`) | `Linkage.MaxClusterableStartingPositionWithParams`, proved sound by `LinkageProperties.PerSetBoundSound` and `LinkageProperties.SweepBoundSound` |
