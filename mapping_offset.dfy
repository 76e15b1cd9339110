/**
 * mappingOffset_t: a byte offset into a file kept as a page-aligned part plus an
 * adjustment, so that the aligned part can be handed to mmap() while the
 * adjustment says where the wanted bytes start inside the mapping.
 */
module MappingOffsets {
  import opened Chunking

  /**
   * `offset % pageSize` as C++ computes it on a signed off_t: the remainder
   * takes the sign of the dividend (Dafny's own `%` never goes negative).
   * The page size (`PageSize`, 4096) is written out as a number in this
   * module's arithmetic so that it stays linear.
   */
  function PageRem(offset: int): (r: int)
    ensures offset >= 0 ==> 0 <= r < 4096 && r == offset % 4096
    ensures offset < 0 ==> -4096 < r <= 0
  {
    if offset >= 0 then offset % 4096 else -((-offset) % 4096)
  }

  /**
   * A mappingOffset_t value. The class keeps the aligned part (`offset_`),
   * the adjustment (`adjust_`) and the length (`length_`); here the first of
   * the three is replaced by the offset the value stands for (`offset()`,
   * which is `offset_ + adjust_`), so the aligned part is `offset - adjust`.
   * The two triples determine each other.
   */
  datatype MappingOffset = MappingOffset(offset: int, adjust: int, length: int)
  {
    function Adjustment(): int { adjust }
    /** Where a mapping that covers this range must start (`offset_`). */
    function AdjustedOffset(): int { offset - adjust }
    /** How long a mapping that covers this range must be. */
    function AdjustedLength(): int { length + adjust }

    /** The `length(n)` setter: only the length changes. */
    function WithLength(n: int): MappingOffset
    {
      this.(length := n)
    }

    /**
     * `operator +=`: the offset moves on by `amount` and the split into
     * aligned part and adjustment is recomputed; the length is kept.
     */
    function Plus(amount: int): (m: MappingOffset)
      ensures m.offset == offset + amount
      ensures m.length == length
      ensures Normal(m)
    {
      Recalc(AdjustedOffset() + amount + adjust, length)
    }

    /**
     * Comparing two values with `==` goes through the conversion to off_t,
     * so only the offsets take part.
     */
    predicate SameAs(other: MappingOffset)
    {
      offset == other.offset
    }
  }

  /**
   * The representation invariant: the aligned part sits on a page boundary,
   * and the adjustment is less than a page and has the sign of the offset.
   */
  predicate Normal(m: MappingOffset)
  {
    && m.AdjustedOffset() % 4096 == 0
    && -4096 < m.adjust < 4096
    && (m.offset >= 0 ==> m.adjust >= 0)
    && (m.offset <= 0 ==> m.adjust <= 0)
  }

  /** A whole number of pages is page aligned. */
  lemma PagesAligned(pages: int)
    ensures (pages * 4096) % 4096 == 0
  {
  }

  /** Taking the truncating remainder off an offset leaves a page boundary. */
  lemma RemLeavesBoundary(raw: int)
    ensures (raw - PageRem(raw)) % 4096 == 0
  {
    if raw >= 0 {
      var pages := raw / 4096;
      assert raw - PageRem(raw) == pages * 4096;
      PagesAligned(pages);
    } else {
      var pages := (-raw) / 4096;
      assert raw - PageRem(raw) == (-pages) * 4096;
      PagesAligned(-pages);
    }
  }

  /**
   * recalcAdjustment() applied to a raw offset held in `offset_`: the
   * adjustment becomes the truncating remainder and the aligned part what is
   * left.
   */
  function Recalc(raw: int, length: int): (m: MappingOffset)
    ensures Normal(m)
    ensures m.offset == raw && m.length == length
    ensures m.Adjustment() == PageRem(raw)
  {
    RemLeavesBoundary(raw);
    MappingOffset(raw, PageRem(raw), length)
  }

  /**
   * For a non-negative offset in normal form the aligned part lies between 0
   * and the offset: a mapping that starts there starts inside the file.
   */
  lemma AlignedPartBounds(m: MappingOffset)
    requires Normal(m) && m.offset >= 0
    ensures 0 <= m.AdjustedOffset() <= m.offset
    ensures 0 <= m.Adjustment() < 4096
  {
    var q := m.AdjustedOffset() / 4096;
    assert m.AdjustedOffset() == q * 4096;
  }

  /** The default value: offset 0, length 0. */
  const Zero: MappingOffset := MappingOffset(0, 0, 0)

  /** The one-argument constructor. */
  function FromOffset(offset: int): MappingOffset
  {
    Recalc(offset, 0)
  }

  /** The two-argument constructor. */
  function FromRange(offset: int, length: int): MappingOffset
  {
    Recalc(offset, length)
  }

  /**
   * For a non-negative offset the adjustment is the offset's distance past
   * the last page boundary, and the aligned part is that boundary.
   */
  lemma FromRangeSplitsAtPage(offset: int, length: int)
    requires offset >= 0
    ensures FromRange(offset, length).Adjustment() == offset % 4096
    ensures FromRange(offset, length).AdjustedOffset() == offset - offset % 4096
    ensures FromRange(offset, length).AdjustedLength() == length + offset % 4096
  {
  }

  /** The default value is offset 0 with length 0, and already normal. */
  lemma ZeroIsDefault()
    ensures Normal(Zero)
    ensures Zero.offset == 0 && Zero.length == 0 && Zero.Adjustment() == 0
    ensures Zero.AdjustedOffset() == 0 && Zero.AdjustedLength() == 0
  {
  }

  /** A range that starts at offset 0 needs no adjustment: it is the default value with a length. */
  lemma FromRangeAtStart(length: int)
    ensures FromRange(0, length) == Zero.WithLength(length)
  {
    NormalIsCanonical(FromRange(0, length), Zero.WithLength(length));
  }

  /**
   * A normal value is determined by its offset and its length: the split into
   * aligned part and adjustment is unique.
   */
  lemma {:induction false} NormalIsCanonical(a: MappingOffset, b: MappingOffset)
    requires Normal(a) && Normal(b)
    requires a.offset == b.offset
    ensures a.AdjustedOffset() == b.AdjustedOffset() && a.Adjustment() == b.Adjustment()
    ensures a.length == b.length ==> a == b
  {
    var p := 4096;
    var qa, qb := a.AdjustedOffset() / p, b.AdjustedOffset() / p;
    assert a.AdjustedOffset() == qa * p;
    assert b.AdjustedOffset() == qb * p;
    var d := a.adjust - b.adjust;
    assert (qb - qa) * p == d;
    assert -p < d < p by {
      if a.offset > 0 {
        assert a.adjust >= 0 && b.adjust >= 0;
      } else if a.offset < 0 {
        assert a.adjust <= 0 && b.adjust <= 0;
      }
    }
  }

  /**
   * Moving a value on by `n` and then by `m` lands on the same value as moving
   * it on by `n + m` in one go.
   */
  lemma PlusComposes(x: MappingOffset, n: int, m: int)
    ensures x.Plus(n).Plus(m) == x.Plus(n + m)
  {
    NormalIsCanonical(x.Plus(n).Plus(m), x.Plus(n + m));
  }

  /**
   * The length setter changes the length and nothing else, and `==` between
   * two values ignores their lengths.
   */
  lemma WithLengthKeepsOffset(x: MappingOffset, n: int)
    ensures x.WithLength(n).length == n
    ensures x.WithLength(n).offset == x.offset && x.WithLength(n).Adjustment() == x.Adjustment()
    ensures Normal(x) ==> Normal(x.WithLength(n))
    ensures x.WithLength(n).SameAs(x) && x.SameAs(x.WithLength(n))
  {
  }
}
