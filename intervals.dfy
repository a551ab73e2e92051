/** Closed, 1-based genomic intervals on named contigs, and the overlap and
    window-expansion primitives the linkage engine uses. */
module Intervals {

  function Min(x: int, y: int): int { if x <= y then x else y }

  function Max(x: int, y: int): int { if x >= y then x else y }

  /** The positions start..end (both included) on contig `contig`. */
  datatype Interval = Interval(contig: string, start: int, end: int)

  /** Number of positions covered. */
  function Size(i: Interval): int { i.end - i.start + 1 }

  /** The single position `pos`. */
  function Point(contig: string, pos: int): (i: Interval)
    ensures i.contig == contig && Size(i) == 1 && i.start == pos
  {
    Interval(contig, pos, pos)
  }

  /** Both intervals lie on one contig and share at least one position. */
  predicate Overlaps(i: Interval, j: Interval)
  {
    i.contig == j.contig && i.start <= j.end && j.start <= i.end
  }

  /** Number of positions two overlapping intervals share. */
  function IntersectionSize(i: Interval, j: Interval): (n: int)
    requires Overlaps(i, j)
    ensures n <= Size(i) && n <= Size(j)
    ensures i.start <= i.end && j.start <= j.end ==> n >= 1
  {
    Min(i.end, j.end) - Max(i.start, j.start) + 1
  }

  /** Position `p` lies in `i`. */
  predicate Contains(i: Interval, p: int)
  {
    i.start <= p <= i.end
  }

  /** The positions lo..hi, both included. */
  function Range(lo: int, hi: int): (s: set<int>)
    ensures forall p :: p in s <==> lo <= p <= hi
    ensures lo <= hi + 1 ==> |s| == hi - lo + 1
    decreases hi - lo
  {
    if lo > hi then {} else Range(lo, hi - 1) + {hi}
  }

  /** IntersectionSize counts exactly the positions two non-empty
      overlapping intervals share: those of Range(shared start, shared end). */
  lemma IntersectionSizeCountsShared(i: Interval, j: Interval)
    requires Overlaps(i, j) && i.start <= i.end && j.start <= j.end
    ensures forall p :: p in Range(Max(i.start, j.start), Min(i.end, j.end)) <==> Contains(i, p) && Contains(j, p)
    ensures IntersectionSize(i, j) == |Range(Max(i.start, j.start), Min(i.end, j.end))|
  {
  }

  /** Reciprocal overlap: the intervals intersect, and the shared part is at
      least `fraction` of each interval's own size. */
  predicate IsReciprocalOverlap(i: Interval, j: Interval, fraction: real)
  {
    && Overlaps(i, j)
    && IntersectionSize(i, j) as real >= Size(i) as real * fraction
    && IntersectionSize(j, i) as real >= Size(j) as real * fraction
  }

  /** Widens `i` by `padding` on both sides, trimmed to the contig [1, contigLength]. */
  function ExpandWithinContig(i: Interval, padding: int, contigLength: int): (e: Interval)
    requires padding >= 0
    ensures e.contig == i.contig
    ensures 1 <= e.start && e.end <= contigLength
    ensures 1 <= i.start && i.end <= contigLength ==> e.start <= i.start && i.end <= e.end
  {
    Interval(i.contig, Max(1, i.start - padding), Min(contigLength, i.end + padding))
  }

  lemma ReciprocalOverlapSymmetric(i: Interval, j: Interval, fraction: real)
    ensures IsReciprocalOverlap(i, j, fraction) <==> IsReciprocalOverlap(j, i, fraction)
  {
  }

  /** A point lies in the contig-trimmed window around another point exactly
      when it is on the contig and at most `padding` positions away. */
  lemma ExpandedPointContains(contig: string, p: int, q: int, padding: int, contigLength: int)
    requires padding >= 0
    ensures Overlaps(ExpandWithinContig(Point(contig, p), padding, contigLength), Point(contig, q))
            <==> 1 <= q <= contigLength && p - padding <= q <= p + padding
  {
  }
}
