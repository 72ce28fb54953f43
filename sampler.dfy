/**
 * The width-class sampler `gen_range_u16`, `gen_range_u32`, `gen_range_u64`:
 * one function over the width class W. It fails on an empty range, computes
 * the width in the element type, converts it to `uW`, reduces the W-bit
 * draw into `[0, width)` by multiply-shift in a 2W-bit product, converts the
 * result back to the element type and adds `start`.
 */
module Sampler {
  import opened Primitives
  import opened BoundedRanges
  import opened MultiplyShift

  /** The ways a sampling call panics. */
  datatype Panic =
    | EmptyRange          // "cannot sample empty range"
    | ArithmeticOverflow  // an overflowing `+`, `-` or `*` (a debug build panics)
    | WidthTooWide        // "width must fit in uW"
    | ValueTooWide        // "value must fit in T"

  datatype Result<T> = Ok(value: T) | Err(error: Panic)
  {
    predicate IsFailure() {
      Err?
    }

    function PropagateFailure<U>(): Result<U>
      requires Err?
    {
      Err(error)
    }

    function Extract(): T
      requires Ok?
    {
      value
    }
  }

  /**
   * The range can be sampled in width class `c`: it is non-empty, its width
   * does not overflow the element type, and the width is a value of `uW`.
   */
  predicate Samplable(c: WidthClass, t: IntType, range: BoundedRange) {
    && !range.IsEmpty()
    && range.Width(t).Some?
    && range.Width(t).value < c.Modulus()
  }

  /**
   * `gen_range_uW(range, r)` with `r` a W-bit draw. On success the value is
   * in the range and is `start + floor(width * r / 2^W)`: the conversions,
   * the narrowing and the final addition never change it. The call fails
   * exactly when the range is not samplable, with the panic the first
   * failing check raises, whatever the draw.
   */
  function GenRange(c: WidthClass, t: IntType, range: BoundedRange, r: nat): (res: Result<int>)
    requires range.Within(t) && r < c.Modulus()
    ensures res.Ok? ==> range.Contains(res.value) && t.Holds(res.value)
    ensures res.Ok? <==> Samplable(c, t, range)
    ensures res.Ok? ==> res.value == range.Start() + MulShift(range.Width(t).value, r, c.Modulus())
    ensures range.IsEmpty() <==> res == Err(EmptyRange)
    ensures !range.IsEmpty() && range.Width(t).None? ==> res == Err(ArithmeticOverflow)
    ensures (!range.IsEmpty() && range.Width(t).Some? && range.Width(t).value >= c.Modulus())
              ==> res == Err(WidthTooWide)
  {
    if range.IsEmpty() then Err(EmptyRange)
    else
      match range.Width(t)
      case None => Err(ArithmeticOverflow)
      case Some(width) =>
        match ToUnsigned(c, width)
        case None => Err(WidthTooWide)
        case Some(w) =>
          var m := c.Modulus();
          MulShiftBelow(w, r, m);
          if !ProductFits(w, r, m) then Err(ArithmeticOverflow)
          else
            NarrowFits(c, MulShift(w, r, m));
            var value := Narrow(c, MulShift(w, r, m));
            OffsetInRange(t, range, value);
            match FromUnsigned(t, value)
            case None => Err(ValueTooWide)
            case Some(v) =>
              match CheckedAdd(t, v, range.Start())
              case None => Err(ArithmeticOverflow)
              case Some(x) => Ok(x)
  }

  /**
   * Coverage: every value of a samplable range is the result of some W-bit
   * draw, so no value of the range is unreachable.
   */
  lemma GenRangeOnto(c: WidthClass, t: IntType, range: BoundedRange, v: int)
    requires range.Within(t) && Samplable(c, t, range) && range.Contains(v)
    ensures exists r: nat :: r < c.Modulus() && GenRange(c, t, range, r) == Ok(v)
  {
    var w, m := range.Width(t).value, c.Modulus();
    ContainedOffset(t, range, v);
    var d := v - range.Start();
    MulShiftOnto(w, d, m);
    var r := FirstDraw(w, d, m);
    var res := GenRange(c, t, range, r);
    assert res.Ok? && res.value == range.Start() + MulShift(w, r, m);
  }

  /**
   * The draws that yield `start + d` are the contiguous block
   * `[FirstDraw(d), FirstDraw(d + 1))`, and every block holds
   * `floor(2^W / width)` or one more draws: the only bias is this
   * difference of at most one draw between values.
   */
  lemma GenRangePreimage(c: WidthClass, t: IntType, range: BoundedRange, r: nat, d: nat)
    requires range.Within(t) && r < c.Modulus() && Samplable(c, t, range)
    ensures var w, m := range.Width(t).value, c.Modulus();
            && (GenRange(c, t, range, r) == Ok(range.Start() + d) <==>
                FirstDraw(w, d, m) <= r < FirstDraw(w, d + 1, m))
            && m / w <= FirstDraw(w, d + 1, m) - FirstDraw(w, d, m) <= m / w + 1
  {
    var w, m := range.Width(t).value, c.Modulus();
    NormalForm(t, range);
    PreimageInterval(w, r, d, m);
    PreimageCount(w, d, m);
  }
}
