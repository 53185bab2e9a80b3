/** Virtual positions of a byte ring and their offsets in ring memory. */
module RingPos {
  import opened Bits

  /**
   * The offset of position `pos` in a ring of `size` bytes. The source masks with `size - 1`
   * for a power-of-two size, which is the same remainder (Bits.AndMask).
   */
  function Offset(pos: nat, size: nat): (off: nat)
    requires size > 0
    ensures off < size
  {
    pos % size
  }

  lemma OffsetSmall(pos: nat, size: nat)
    requires pos < size
    ensures Offset(pos, size) == pos
  {
  }

  /** Within one cycle offsets advance with positions. */
  lemma OffsetAdd(pos: nat, d: nat, size: nat)
    requires size > 0 && Offset(pos, size) + d < size
    ensures Offset(pos + d, size) == Offset(pos, size) + d
  {
    DivModSplit(pos, size);
    DivModUnique(pos + d, size, pos / size, pos % size + d);
  }

  /** At the end of the cycle the offset starts over. */
  lemma OffsetWraps(pos: nat, d: nat, size: nat)
    requires size > 0 && Offset(pos, size) + d == size
    ensures Offset(pos + d, size) == 0
  {
    DivModSplit(pos, size);
    var q := pos / size;
    assert pos + d == (q + 1) * size + 0;
    DivModUnique(pos + d, size, q + 1, 0);
  }

  lemma AlignedSum(a: nat, b: nat)
    requires a % 32 == 0 && b % 32 == 0
    ensures (a + b) % 32 == 0 && (a >= b ==> (a - b) % 32 == 0)
  {
  }

  lemma OffsetAligned(pos: nat, size: nat)
    requires size > 0 && pos % 32 == 0 && size % 32 == 0
    ensures Offset(pos, size) % 32 == 0
  {
    DivModSplit(pos, size);
    var q, k := pos / size, size / 32;
    assert q * size == 32 * (q * k);
  }

  /** Distinct positions less than one ring apart have distinct offsets. */
  lemma OffsetDistinct(p: nat, q: nat, size: nat)
    requires size > 0 && p < q < p + size
    ensures Offset(p, size) != Offset(q, size)
  {
    DivModSplit(p, size);
    DivModSplit(q, size);
    MultipleBetween(q / size - p / size, size);
  }

  lemma OffsetApart(p: nat, q: nat, size: nat)
    requires p != q && p < q + size && q < p + size
    ensures Offset(p, size) != Offset(q, size)
  {
    if p < q {
      OffsetDistinct(p, q, size);
    } else {
      OffsetDistinct(q, p, size);
    }
  }

  /** Some byte of `start..end` shares its place in the ring with a byte of `consumed..start`. */
  ghost predicate Clashes(consumed: nat, start: nat, end: nat, size: nat)
    requires size > 0
  {
    exists p: nat, q: nat {:trigger Offset(p, size), Offset(q, size)} ::
      consumed <= p < start <= q < end && Offset(p, size) == Offset(q, size)
  }

  /** A write clashes exactly when it ends more than one ring past what has been consumed. */
  lemma ClashesExactly(consumed: nat, start: nat, end: nat, size: nat)
    requires size > 0 && consumed < start < end
    ensures Clashes(consumed, start, end, size) <==> end > consumed + size
  {
    if end > consumed + size {
      var q := if start <= consumed + size then consumed + size else start;
      var p := q - size;
      OffsetPeriodic(p, size);
      assert Offset(p, size) == Offset(q, size);
    } else {
      forall p: nat, q: nat | consumed <= p < start <= q < end
        ensures Offset(p, size) != Offset(q, size)
      {
        OffsetDistinct(p, q, size);
      }
    }
  }

  lemma OffsetPeriodic(p: nat, size: nat)
    requires size > 0
    ensures Offset(p + size, size) == Offset(p, size)
  {
    DivModSplit(p, size);
    assert p + size == (p / size + 1) * size + p % size;
    DivModUnique(p + size, size, p / size + 1, p % size);
  }
}
