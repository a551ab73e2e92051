/** Structural-variant call records as the linkage engine reads them, and the
    sequence dictionary that gives each contig's length. */
module Records {
  import opened Intervals

  /** Event kinds of a structural variant. */
  datatype SvType = Del | Dup | Cnv | Ins | Inv | Bnd

  /** Copy-number kinds: the deletion/duplication family. */
  predicate IsCnvType(t: SvType)
  {
    t == Del || t == Dup || t == Cnv
  }

  /** One SV call: two breakends (contig, 1-based position, strand), a signed
      length (below 1 means undefined), the evidence class and the carriers. */
  datatype SvCallRecord = SvCallRecord(
    svType: SvType,
    contigA: string, positionA: int, strandA: bool,
    contigB: string, positionB: int, strandB: bool,
    length: int,
    isDepthOnly: bool,
    carrierSamples: set<string>)
  {
    predicate IsCnv() { IsCnvType(svType) }

    predicate IsIntrachromosomal() { contigA == contigB }

    function PositionAInterval(): (i: Interval)
      ensures i.contig == contigA && Size(i) == 1 && i.start == positionA
    {
      Point(contigA, positionA)
    }

    function PositionBInterval(): (i: Interval)
      ensures i.contig == contigB && Size(i) == 1 && i.start == positionB
    {
      Point(contigB, positionB)
    }
  }

  /** Contig name to contig length. */
  type SequenceDictionary = map<string, int>

  /** Both breakends lie on contigs of the dictionary, within [1, contig length]. */
  predicate OnDictionary(r: SvCallRecord, dictionary: SequenceDictionary)
  {
    && r.contigA in dictionary && 1 <= r.positionA <= dictionary[r.contigA]
    && r.contigB in dictionary && 1 <= r.positionB <= dictionary[r.contigB]
  }
}
