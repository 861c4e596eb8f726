// Block layout: payload offsets, the stored alignment, and array elements.
module Layout {
  import opened Wrappers
  import opened Words
  import opened Bits
  import opened ChunkHeaders

  const MAX_ALIGN: nat := 16         // alignof(std::max_align_t)
  const OFFSET_MAX: nat := 65535     // largest payload_offset
  const COUNT_SIZE: nat := 8         // sizeof(std::size_t)

  function NormalizeAlignment(alignment: Word): (r: Word) {
    if alignment < MAX_ALIGN then MAX_ALIGN else alignment
  }

  // round_up_to_alignment; None stands for std::bad_alloc.
  function RoundUp(value: Word, alignment: Word): Option<Word> {
    if alignment == 0 || And(alignment, alignment - 1) != 0 then None
    else if AddWouldOverflow(value, alignment - 1) then None
    else Some(And(value + alignment - 1, Not(alignment - 1)))
  }

  lemma MaskIsRemainder(sum: Word, alignment: Word)
    requires HasSingleBit(alignment)
    ensures And(sum, Not(alignment - 1)) == sum - sum % alignment
  {
    var k := CountrZero(alignment);
    SingleBitIsPower(alignment);
    Pow64();
    assert Pow2(65) == 2 * Pow2(64);
    if k > 64 {
      PowersGrow(65, k);
    }
    ClearLowBits(sum, 64, k);
  }

  // The rounded value is the least multiple of the alignment that is not below the value;
  // it exists exactly if the alignment is a power of two and the sum does not overflow.
  lemma RoundUpIsLeastMultiple(value: Word, alignment: Word)
    ensures RoundUp(value, alignment).Some? <==> HasSingleBit(alignment) && value + (alignment - 1) <= WORD_MAX
    ensures RoundUp(value, alignment).Some? ==>
              var r := RoundUp(value, alignment).value;
              r % alignment == 0 && value <= r < value + alignment &&
              forall m: nat :: m % alignment == 0 && value <= m ==> r <= m
  {
    if RoundUp(value, alignment).Some? {
      var sum: Word := value + alignment - 1;
      MaskIsRemainder(sum, alignment);
      RoundedIsLeast(value, alignment, sum - sum % alignment);
    }
  }

  lemma RoundedIsLeast(value: nat, m: nat, r: nat)
    requires m > 0 && r == value + m - 1 - (value + m - 1) % m
    ensures r % m == 0 && value <= r < value + m
    ensures forall x: nat :: x % m == 0 && value <= x ==> r <= x
  {
    var sum := value + m - 1;
    assert sum == sum / m * m + sum % m;
    ModUnique(r, m, sum / m, 0);
    forall x: nat | x % m == 0 && value <= x
      ensures r <= x
    {
      if x < r {
        MultiplesApart(x, r, m);
      }
    }
  }

  // The layout malloc_internal computes; None stands for std::bad_alloc.
  datatype BlockLayout = BlockLayout(alignment: Word, offset: Word, total: Word)

  function LayoutOf(payloadSize: Word, payloadAlignment: Word): Option<BlockLayout> {
    if payloadSize == 0 || !HasSingleBit(payloadAlignment) then None
    else
      var alignment := NormalizeAlignment(payloadAlignment);
      var offset := RoundUp(HEADER_SIZE, alignment);
      if offset.None? then None
      else if offset.value > OFFSET_MAX || AddWouldOverflow(offset.value, payloadSize) then None
      else Some(BlockLayout(alignment, offset.value, offset.value + payloadSize))
  }

  lemma SixteenIsSingleBit()
    ensures HasSingleBit(16)
  {
    PowerIsSingleBit(4);
  }

  lemma LayoutRounded(payloadSize: Word, payloadAlignment: Word)
    requires LayoutOf(payloadSize, payloadAlignment).Some?
    ensures
      var l := LayoutOf(payloadSize, payloadAlignment).value;
      && payloadSize > 0 && HasSingleBit(l.alignment) && HasSingleBit(payloadAlignment)
      && l.alignment >= MAX_ALIGN && l.alignment >= payloadAlignment
      && HEADER_SIZE <= l.offset <= OFFSET_MAX && l.offset % l.alignment == 0 && l.total == l.offset + payloadSize
  {
    SixteenIsSingleBit();
    RoundUpIsLeastMultiple(HEADER_SIZE, NormalizeAlignment(payloadAlignment));
    hide RoundUp, HasSingleBit;
  }

  ghost predicate IsPower(x: nat) {
    exists k: nat :: Pow2(k) == x
  }

  lemma PowerHasSingleBit(x: nat)
    ensures IsPower(x) <==> HasSingleBit(x)
  {
    if k: nat :| Pow2(k) == x {
      PowerIsSingleBit(k);
    }
    if HasSingleBit(x) {
      SingleBitIsPower(x);
    }
  }

  // There is a layout exactly if the size is positive, the alignment a power of two, the offset
  // fits 16 bits and the whole fits a word; the offset is 32, or the alignment if that is larger.
  lemma LayoutExact(payloadSize: Word, payloadAlignment: Word)
    ensures
      var offset := if payloadAlignment < 32 then 32 else payloadAlignment;
      && (LayoutOf(payloadSize, payloadAlignment).Some? <==>
            payloadSize > 0 && IsPower(payloadAlignment) && offset <= 65535 && offset + payloadSize < WORD_LIMIT)
      && (LayoutOf(payloadSize, payloadAlignment).Some? ==>
            var l := LayoutOf(payloadSize, payloadAlignment).value;
            && l.alignment == (if payloadAlignment < 16 then 16 else payloadAlignment)
            && l.offset == offset && l.total == offset + payloadSize)
  {
    PowerHasSingleBit(payloadAlignment);
    SixteenIsSingleBit();
    if HasSingleBit(payloadAlignment) {
      HeaderRoundsUp(NormalizeAlignment(payloadAlignment));
      BelowThirtyTwo(payloadAlignment);
    }
    hide RoundUp, HasSingleBit, IsPower;
  }

  lemma HeaderRoundsUp(alignment: Word)
    requires HasSingleBit(alignment) && alignment >= 16
    ensures
      var offset := if alignment < 32 then 32 else alignment;
      RoundUp(32, alignment) == if 32 + (alignment - 1) < WORD_LIMIT then Some(offset) else None
  {
    RoundUpIsLeastMultiple(32, alignment);
    BelowThirtyTwo(alignment);
    hide RoundUp, HasSingleBit;
    if RoundUp(32, alignment).Some? {
      var r := RoundUp(32, alignment).value;
      assert alignment % alignment == 0;
      if alignment >= 32 && r < alignment {
        MultiplesApart(r, alignment, alignment);
      }
    }
  }

  // 16 is the only power of two from 16 to 31.
  lemma BelowThirtyTwo(alignment: nat)
    requires HasSingleBit(alignment)
    ensures 16 <= alignment < 32 ==> alignment == 16
  {
    var k := CountrZero(alignment);
    SingleBitIsPower(alignment);
    assert Pow2(4) == 16 && Pow2(5) == 32;
    if k >= 5 {
      PowersGrow(5, k);
    } else if k < 4 {
      PowersGrow(k, 3);
    }
  }

  // The payload of an aligned block starts past the header, on a multiple of the requested
  // alignment and of the word size, and its offset fits 16 bits.
  lemma LayoutFits(payloadSize: Word, payloadAlignment: Word, raw: Address)
    requires LayoutOf(payloadSize, payloadAlignment).Some?
    requires raw % LayoutOf(payloadSize, payloadAlignment).value.alignment == 0
    ensures
      var l := LayoutOf(payloadSize, payloadAlignment).value;
      && payloadSize > 0 && HasSingleBit(l.alignment) && l.alignment >= MAX_ALIGN && l.alignment >= payloadAlignment
      && HEADER_SIZE <= l.offset <= OFFSET_MAX && l.total == l.offset + payloadSize
      && (raw + l.offset) % l.alignment == 0 && (raw + l.offset) % payloadAlignment == 0
      && (raw + l.offset) % WORD_SIZE == 0
      && Pow2(CountrZero(l.alignment)) == l.alignment
  {
    var l := LayoutOf(payloadSize, payloadAlignment).value;
    LayoutRounded(payloadSize, payloadAlignment);
    hide LayoutOf, RoundUp, HasSingleBit, CountrZero, Pow2;
    AlignedFor(raw, l.offset, l.alignment, payloadAlignment);
  }

  lemma AlignedFor(raw: nat, offset: nat, alignment: nat, smaller: nat)
    requires HasSingleBit(alignment) && HasSingleBit(smaller) && MAX_ALIGN <= alignment && smaller <= alignment
    requires raw % alignment == 0 && offset % alignment == 0
    ensures smaller > 0 && (raw + offset) % alignment == 0 && (raw + offset) % smaller == 0
    ensures (raw + offset) % WORD_SIZE == 0 && Pow2(CountrZero(alignment)) == alignment
  {
    hide HasSingleBit, CountrZero, Pow2;
    SingleBitIsPower(alignment);
    SumOfMultiples(raw, offset, alignment);
    SmallerPowerDivides(raw + offset, alignment, WORD_SIZE);
    SmallerPowerDivides(raw + offset, alignment, smaller);
  }

  // What a power of two divides, every smaller one divides.
  lemma SmallerPowerDivides(x: nat, alignment: nat, smaller: nat)
    requires HasSingleBit(alignment) && x % alignment == 0
    requires smaller == WORD_SIZE || HasSingleBit(smaller)
    requires smaller <= alignment
    ensures smaller > 0 && x % smaller == 0
  {
    if smaller == WORD_SIZE {
      PowerIsSingleBit(3);
    }
    var j, k := CountrZero(smaller), CountrZero(alignment);
    SingleBitIsPower(smaller);
    SingleBitIsPower(alignment);
    if k < j {
      PowersGrow(k + 1, j);
    }
    PowerDivides(x, j, k);
  }

  lemma SumOfMultiples(a: nat, b: nat, m: nat)
    requires m > 0 && a % m == 0 && b % m == 0
    ensures (a + b) % m == 0
  {
    assert a == a / m * m && b == b / m * m;
    assert a + b == (a / m + b / m) * m;
    ModUnique(a + b, m, a / m + b / m, 0);
  }

  lemma {:induction false} PowerDivides(x: nat, j: nat, k: nat)
    requires j <= k && x % Pow2(k) == 0
    ensures x % Pow2(j) == 0
    decreases k
  {
    if j < k {
      var half := Pow2(k - 1);
      assert x == x / Pow2(k) * (2 * half);
      assert x == (x / Pow2(k) * 2) * half;
      ModUnique(x, half, x / Pow2(k) * 2, 0);
      PowerDivides(x, j, k - 1);
    }
  }

  // --- Arrays: [count][padding][elements...] ---

  predicate MultiplyWouldOverflow(lhs: Word, rhs: Word) {
    rhs != 0 && lhs > WORD_MAX / rhs
  }

  lemma MultiplyOverflowExact(lhs: Word, rhs: Word)
    ensures MultiplyWouldOverflow(lhs, rhs) <==> lhs * rhs > WORD_MAX
  {
    if rhs != 0 {
      QuotientExact(lhs, rhs, WORD_MAX);
    }
  }

  lemma QuotientExact(lhs: nat, rhs: nat, limit: nat)
    requires rhs > 0
    ensures lhs > limit / rhs <==> lhs * rhs > limit
  {
    var q, r := limit / rhs, limit % rhs;
    assert limit == q * rhs + r;
    if lhs < q {
      MulMonotone(lhs, q, rhs);
    } else if q < lhs {
      MulMonotone(q, lhs, rhs);
    }
  }

  // array_elements_offset; the alignment of a C++ type is a power of two.
  function ElementsOffset(elementAlignment: Word): Word
    requires 0 < elementAlignment && COUNT_SIZE + elementAlignment <= WORD_MAX
  {
    And(COUNT_SIZE + elementAlignment - 1, Not(elementAlignment - 1))
  }

  function ArrayAlignment(elementAlignment: Word): Word {
    if elementAlignment >= COUNT_SIZE then elementAlignment else COUNT_SIZE
  }

  datatype ArrayLayout = ArrayLayout(prefix: Word, payloadSize: Word, alignment: Word)

  function ArrayLayoutOf(count: Word, elementSize: Word, elementAlignment: Word): Option<ArrayLayout>
    requires 0 < elementAlignment && COUNT_SIZE + elementAlignment <= WORD_MAX
  {
    var prefix := ElementsOffset(elementAlignment);
    if MultiplyWouldOverflow(elementSize, count) then None
    else if elementSize * count > WORD_MAX then None
    else if AddWouldOverflow(prefix, elementSize * count) then None
    else Some(ArrayLayout(prefix, prefix + elementSize * count, ArrayAlignment(elementAlignment)))
  }

  function ElementAddress(payload: nat, l: ArrayLayout, elementSize: nat, i: nat): nat {
    payload + l.prefix + i * elementSize
  }

  // There is an array layout exactly if the bytes of the elements, after a prefix that is 8 or the
  // alignment if that is larger, fit a word; then the payload is as large as both.
  lemma ArrayLayoutExact(count: Word, elementSize: Word, elementAlignment: Word)
    requires 0 < elementAlignment && COUNT_SIZE + elementAlignment <= WORD_MAX && IsPower(elementAlignment)
    ensures
      var prefix := if elementAlignment < 8 then 8 else elementAlignment;
      && (ArrayLayoutOf(count, elementSize, elementAlignment).Some? <==> prefix + elementSize * count < WORD_LIMIT)
      && (ArrayLayoutOf(count, elementSize, elementAlignment).Some? ==>
            ArrayLayoutOf(count, elementSize, elementAlignment).value ==
            ArrayLayout(prefix, prefix + elementSize * count, prefix))
  {
    PowerHasSingleBit(elementAlignment);
    MultiplyOverflowExact(elementSize, count);
    CountRoundsUp(elementAlignment);
    hide ElementsOffset, HasSingleBit, IsPower, MultiplyWouldOverflow;
  }

  lemma CountRoundsUp(elementAlignment: Word)
    requires 0 < elementAlignment && COUNT_SIZE + elementAlignment <= WORD_MAX && HasSingleBit(elementAlignment)
    ensures ElementsOffset(elementAlignment) == if elementAlignment < 8 then 8 else elementAlignment
  {
    RoundUpIsLeastMultiple(8, elementAlignment);
    assert RoundUp(8, elementAlignment) == Some(ElementsOffset(elementAlignment));
    EightIsMultiple(elementAlignment);
    hide RoundUp, ElementsOffset, HasSingleBit;
    var r := ElementsOffset(elementAlignment);
    assert elementAlignment % elementAlignment == 0;
    if elementAlignment >= 8 && r < elementAlignment {
      MultiplesApart(r, elementAlignment, elementAlignment);
    }
  }

  lemma EightIsMultiple(alignment: nat)
    requires HasSingleBit(alignment)
    ensures alignment < 8 ==> 8 % alignment == 0
  {
    var k := CountrZero(alignment);
    SingleBitIsPower(alignment);
    assert Pow2(3) == 8 && 8 % Pow2(3) == 0;
    if k > 3 {
      PowersGrow(3, k);
    } else {
      PowerDivides(8, k, 3);
    }
  }

  // Every element is aligned and lies inside the payload, past the count.
  lemma ElementFits(count: Word, elementSize: Word, elementAlignment: Word, payload: Address, i: nat)
    requires 0 < elementAlignment && COUNT_SIZE + elementAlignment <= WORD_MAX && HasSingleBit(elementAlignment)
    requires elementSize % elementAlignment == 0
    requires ArrayLayoutOf(count, elementSize, elementAlignment).Some?
    requires payload % ArrayLayoutOf(count, elementSize, elementAlignment).value.alignment == 0
    requires i < count
    ensures
      var l := ArrayLayoutOf(count, elementSize, elementAlignment).value;
      && ElementAddress(payload, l, elementSize, i) % elementAlignment == 0
      && payload + COUNT_SIZE <= ElementAddress(payload, l, elementSize, i)
      && ElementAddress(payload, l, elementSize, i) + elementSize <= payload + l.payloadSize
  {
    var l := ArrayLayoutOf(count, elementSize, elementAlignment).value;
    LayoutParts(count, elementSize, elementAlignment);
    hide *;
    PrefixFits(elementAlignment, payload);
    ElementAligned(payload, l, elementSize, elementAlignment, i);
    ElementInside(payload, l, elementSize, count, i);
  }

  lemma ElementInside(payload: nat, l: ArrayLayout, elementSize: nat, count: nat, i: nat)
    requires i < count && COUNT_SIZE <= l.prefix && l.payloadSize == l.prefix + count * elementSize
    ensures payload + COUNT_SIZE <= ElementAddress(payload, l, elementSize, i)
    ensures ElementAddress(payload, l, elementSize, i) + elementSize <= payload + l.payloadSize
  {
    MulMonotone(i, count, elementSize);
  }

  // Different elements do not overlap.
  lemma ElementsApart(payload: nat, l: ArrayLayout, elementSize: nat, i: nat, j: nat)
    requires i < j
    ensures ElementAddress(payload, l, elementSize, i) + elementSize <= ElementAddress(payload, l, elementSize, j)
  {
    MulMonotone(i, j, elementSize);
  }

  lemma LayoutParts(count: Word, elementSize: Word, elementAlignment: Word)
    requires 0 < elementAlignment && COUNT_SIZE + elementAlignment <= WORD_MAX
    requires ArrayLayoutOf(count, elementSize, elementAlignment).Some?
    ensures
      var l := ArrayLayoutOf(count, elementSize, elementAlignment).value;
      && l.prefix == ElementsOffset(elementAlignment) && l.alignment == ArrayAlignment(elementAlignment)
      && l.payloadSize == l.prefix + count * elementSize
  {
    hide ElementsOffset;
  }

  lemma PrefixFits(elementAlignment: Word, payload: Address)
    requires 0 < elementAlignment && COUNT_SIZE + elementAlignment <= WORD_MAX && HasSingleBit(elementAlignment)
    requires payload % ArrayAlignment(elementAlignment) == 0
    ensures COUNT_SIZE <= ElementsOffset(elementAlignment)
    ensures (payload + ElementsOffset(elementAlignment)) % elementAlignment == 0
  {
    RoundUpIsLeastMultiple(COUNT_SIZE, elementAlignment);
    assert RoundUp(COUNT_SIZE, elementAlignment) == Some(ElementsOffset(elementAlignment));
    if elementAlignment < COUNT_SIZE {
      var k := CountrZero(elementAlignment);
      SingleBitIsPower(elementAlignment);
      assert Pow2(3) == 8;
      if k > 3 {
        PowersGrow(3, k);
      }
      PowerDivides(payload, k, 3);
    }
    SumOfMultiples(payload, ElementsOffset(elementAlignment), elementAlignment);
  }

  lemma ElementAligned(payload: nat, l: ArrayLayout, elementSize: nat, m: nat, i: nat)
    requires m > 0 && (payload + l.prefix) % m == 0 && elementSize % m == 0
    ensures ElementAddress(payload, l, elementSize, i) % m == 0
  {
    var base := payload + l.prefix;
    var q := elementSize / m;
    assert elementSize == q * m;
    assert i * elementSize == (i * q) * m;
    ModUnique(i * elementSize, m, i * q, 0);
    SumOfMultiples(base, i * elementSize, m);
  }
}
