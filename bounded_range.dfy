/**
 * The range normaliser: a half-open `start..end` or a closed `start..=end`
 * over some primitive integer type, seen through the three questions the
 * sampler asks of it, `start()`, `width()` and `is_empty()`.
 */
module BoundedRanges {
  import opened Primitives

  datatype BoundedRange =
    | Exclusive(start: int, end: int)   // `start..end`
    | Inclusive(start: int, end: int)   // `start..=end`
  {
    /** Both endpoints are values of the element type `t`. */
    predicate Within(t: IntType) {
      t.Holds(start) && t.Holds(end)
    }

    /** `start()`: the lowest value the range can yield. */
    function Start(): int {
      start
    }

    /** `is_empty()`: `!(start < end)` for `..`, `!(start <= end)` for `..=`. */
    predicate IsEmpty() {
      match this
      case Exclusive(s, e) => !(s < e)
      case Inclusive(s, e) => !(s <= e)
    }

    /**
     * `width()`, evaluated in the element type `t`: `end - start` for `..`,
     * `end - start + 1` for `..=`; `None` is the arithmetic-overflow panic.
     */
    function Width(t: IntType): Option<int> {
      match this
      case Exclusive(s, e) => CheckedSub(t, e, s)
      case Inclusive(s, e) =>
        match CheckedSub(t, e, s)
        case None => None
        case Some(d) => CheckedAdd(t, d, 1)
    }

    /** `RangeBounds::contains`: the reference meaning of the range. */
    predicate Contains(v: int) {
      match this
      case Exclusive(s, e) => s <= v < e
      case Inclusive(s, e) => s <= v <= e
    }

    /** The set of values the range denotes. */
    ghost function Members(): set<int> {
      match this
      case Exclusive(s, e) => Interval(s, e)
      case Inclusive(s, e) => Interval(s, e + 1)
    }
  }

  /** The integers from `lo` up to but excluding `hi`, collected one by one. */
  ghost function Interval(lo: int, hi: int): set<int>
    decreases hi - lo
  {
    if lo >= hi then {} else {lo} + Interval(lo + 1, hi)
  }

  /** `Interval(lo, hi)` holds exactly the integers `lo <= v < hi`, and as many as its bounds are apart. */
  lemma {:induction false} IntervalFacts(lo: int, hi: int)
    ensures forall v :: v in Interval(lo, hi) <==> lo <= v < hi
    ensures lo <= hi ==> |Interval(lo, hi)| == hi - lo
    decreases hi - lo
  {
    if lo < hi {
      IntervalFacts(lo + 1, hi);
      assert lo !in Interval(lo + 1, hi);
    }
  }

  /** `Members` and `Contains` describe the same values. */
  lemma MembersAreContained(range: BoundedRange, v: int)
    ensures v in range.Members() <==> range.Contains(v)
  {
    match range
    case Exclusive(s, e) => IntervalFacts(s, e);
    case Inclusive(s, e) => IntervalFacts(s, e + 1);
  }

  /** A range is empty exactly when it contains no value at all. */
  lemma EmptyIffNoMembers(range: BoundedRange)
    ensures range.IsEmpty() <==> range.Members() == {}
  {
    MembersAreContained(range, range.Start());
    if range.IsEmpty() {
      forall v | v in range.Members() ensures false {
        MembersAreContained(range, v);
      }
    }
  }

  /**
   * The normal form `(start, width)` of a non-empty range denotes the same
   * values as the range itself, and `width` counts them: `end - start` for
   * `..`, `end - start + 1` for `..=`.
   */
  lemma NormalForm(t: IntType, range: BoundedRange)
    requires range.Within(t) && !range.IsEmpty() && range.Width(t).Some?
    ensures range.Members() == Interval(range.Start(), range.Start() + range.Width(t).value)
    ensures |range.Members()| == range.Width(t).value
    ensures range.Width(t).value > 0
    ensures forall v :: range.Contains(v) <==> range.Start() <= v < range.Start() + range.Width(t).value
  {
    match range
    case Exclusive(s, e) => IntervalFacts(s, e);
    case Inclusive(s, e) => IntervalFacts(s, e + 1);
  }

  /**
   * An offset below the width lands inside the range; the offset and the
   * value it lands on are both values of the element type.
   */
  lemma OffsetInRange(t: IntType, range: BoundedRange, d: int)
    requires range.Within(t) && !range.IsEmpty() && range.Width(t).Some?
    requires 0 <= d < range.Width(t).value
    ensures range.Contains(range.Start() + d)
    ensures t.Holds(d) && t.Holds(range.Start() + d)
  {
  }

  /** Conversely, every value the range contains lies at an offset below the width. */
  lemma ContainedOffset(t: IntType, range: BoundedRange, v: int)
    requires range.Within(t) && !range.IsEmpty() && range.Width(t).Some? && range.Contains(v)
    ensures 0 <= v - range.Start() < range.Width(t).value
  {
  }

  /**
   * `width()` of a non-empty range overflows exactly when the number of values
   * in the range exceeds the largest value of the element type; so for an
   * unsigned type it fails only on the full-domain `0..=MAX`.
   */
  lemma WidthDefinedIff(t: IntType, range: BoundedRange)
    requires range.Within(t) && !range.IsEmpty()
    ensures range.Width(t).Some? <==> |range.Members()| <= t.Max()
    ensures range.Width(t).Some? ==> range.Width(t).value == |range.Members()|
  {
    match range
    case Exclusive(s, e) => IntervalFacts(s, e);
    case Inclusive(s, e) => IntervalFacts(s, e + 1);
  }

  /** An empty range has no normal form in an unsigned type: the subtraction underflows. */
  lemma EmptyExclusiveUnsignedUnderflows(t: IntType, s: int, e: int)
    requires t.Min() == 0 && Exclusive(s, e).Within(t) && s > e
    ensures Exclusive(s, e).IsEmpty() && Exclusive(s, e).Width(t) == None
  {
  }
}
