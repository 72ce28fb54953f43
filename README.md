# Fast bounded-integer sampling, modelled in Dafny

This project models the fast range sampler of `src/random.rs`. The sampler
derives one to four integers, each in its own range, from a single 64-bit
random word. The model has five modules: one for the integer primitives, and
one each for the range normaliser, the multiply-shift reduction, the
width-class sampler and the packing driver:

- **Range normaliser** (`BoundedRanges`, `bounded_range.dfy`). A half-open
  `start..end` or closed `start..=end` range is a `BoundedRange`. It has
  `Start()`, `IsEmpty()` and `Width(t)`. `Width(t)` is evaluated in the
  element type `t` and returns `None` when the subtraction or the `+ 1`
  overflows. `Contains` gives the range's meaning (`RangeBounds::contains`)
  and `Members()` gives it as a set. The lemmas connect the normal form
  `(start, width)` to that meaning.
- **Multiply-shift reduction** (`MultiplyShift`, `multiply_shift.dfy`).
  `MulShift(w, r, m) = floor(w * r / m)` with `m = 2^W` is
  `((w as u2W) * (r as u2W)) >> W`. The facts are proved for any modulus:
  - the result is below `w`, and the 2W-bit product cannot overflow;
  - the reduction is onto `[0, w)`;
  - the draws that reduce to one value form a contiguous block;
  - every block holds `floor(m / w)` or `floor(m / w) + 1` draws. This is
    the exact, deterministic form of the sampler's bias.
- **Width-class sampler** (`Sampler`, `sampler.dfy`). `GenRange(c, t, range, r)`
  is `gen_range_u16`, `gen_range_u32` or `gen_range_u64`, selected by the
  width class `c` ∈ {`W16`, `W32`, `W64`}. Every check the source makes is
  modelled, in the source's order, as a `Panic`:
  - the empty-range assertion;
  - an overflow inside `width()`;
  - `to_uW`;
  - the 2W-bit product;
  - `from_uW`;
  - the final `+ start`.

  The contract proves that the last three never fire.
- **Packing driver** (`Packing`, `packing.dfy`). There is one function per
  `fast_gen_range_*` method. The `next_u64()` draw is the parameter `word`.
  `Lane(word, shift, c)` is `(word >> shift) as uW`. A panic in an earlier
  sample stops the call, which Dafny's `:-` expresses as in Rust.

Element types are the twelve primitive integer types (`IntType`), signed ones
included. Values are unbounded `int`s with explicit bounds checks.
Arithmetic follows a debug build, where an overflowing `+`, `-` or `*` panics.

Three facts about the code shape the contracts:

- The `value must fit in T` check and the final `+ start`
  (src/random.rs:183, :191, :199) can never fail once `width()` has
  succeeded, as `Sampler.GenRange` proves. Past the emptiness assertion,
  a call can therefore fail only inside `width()` (an overflow, in a debug
  build) or at the conversion of the width to `uW` ("width must fit in uW",
  src/random.rs:180, :188, :196).
- The samplers test emptiness before calling `width()`. This matters
  because, for an unsigned type, `width()` of an empty range with
  `start > end` underflows and panics in a debug build
  (`BoundedRanges.EmptyExclusiveUnsignedUnderflows`). An empty range with
  `start == end` has width 0 and does not panic.
- The width must be a value of `uW`, so at most `2^W - 1`. A 16-bit sampler
  therefore rejects a range of 65536 values, such as `0..=65535` over `u32`.

## Model

| member | source | states |
|---|---|---|
| `BoundedRanges.EmptyIffNoMembers` | src/random.rs:208-234 | `is_empty()` (`!(start < end)` for `..`, `!(start <= end)` for `..=`) holds exactly when the range contains no value |
| `BoundedRanges.NormalForm` | src/random.rs:208-234 | for a non-empty range whose `width()` succeeds, the width is positive and equals the number of values in the range, and the range contains exactly `start <= v < start + width` |
| `BoundedRanges.WidthDefinedIff` | src/random.rs:213-229 | `width()` of a non-empty range (`end - start`, or `end - start + 1`) succeeds exactly when the number of values in the range does not exceed the element type's maximum, and then equals that number |
| `BoundedRanges.EmptyExclusiveUnsignedUnderflows` | src/random.rs:213-219 | for an unsigned type, `width()` of an exclusive range with `start > end` underflows, which is why emptiness must be tested first |
| `BoundedRanges.OffsetInRange` | src/random.rs:183 | an offset below the width, added to `start`, stays in the range and in the element type, so `from_uW` and `+ start` cannot fail |
| `BoundedRanges.ContainedOffset` | src/random.rs:194-200 | every value the range contains lies at an offset `0 <= v - start < width` |
| `Primitives.ModulusIsPow2` | src/random.rs:178-200 | the divisor used for `>> W` is `2^W` for W = 16, 32, 64 |
| `Primitives.NarrowFits` | src/random.rs:178-200 | the narrowing cast `as uW` leaves a value below `2^W` unchanged |
| `MultiplyShift.MulShiftBelow` | src/random.rs:178-200 | for `0 < width` and a draw `r < 2^W`, `(width * r) >> W < width`; when `width < 2^W` the product fits in 2W bits; holds for W = 16, 32, 64 |
| `MultiplyShift.MulShiftOnto` | src/random.rs:178-200 | for `0 < width <= 2^W` every `v < width` is `(width * r) >> W` for the draw `r = ceil(v * 2^W / width) < 2^W` |
| `MultiplyShift.PreimageInterval` | src/random.rs:178-200 | `(width * r) >> W == v` exactly when `ceil(v * 2^W / width) <= r < ceil((v + 1) * 2^W / width)` |
| `MultiplyShift.PreimageCount` | src/random.rs:178-200 | each value has `floor(2^W / width)` or `floor(2^W / width) + 1` preimages: the bias is at most one draw per value |
| `Sampler.GenRange` | src/random.rs:178-200 | a result lies in the range and in the element type and equals `start + floor(width * r / 2^W)`; the call fails exactly when the range is empty (`EmptyRange`), `width()` overflows (`ArithmeticOverflow`) or the width is not a `uW` (`WidthTooWide`), whatever the draw |
| `Sampler.GenRangeOnto` | src/random.rs:194-200 | every value of a samplable range is produced by some W-bit draw |
| `Sampler.GenRangePreimage` | src/random.rs:194-200 | the draws yielding `start + d` are one contiguous block of `floor(2^W / width)` or one more draws |
| `Packing.Lane` | src/random.rs:169-173 | `(word >> shift) as uW` is a W-bit value |
| `Packing.FastGenRangeU64x1` | src/random.rs:77-83 | the whole word feeds one 64-bit sample; succeeds iff the range is samplable in 64 bits, then the value is in the range; an empty range fails with `EmptyRange` for every draw |
| `Packing.FastGenRangeU32x1` | src/random.rs:85-91 | the low 32 bits feed one 32-bit sample; success iff samplable, value in range, empty range always fails |
| `Packing.FastGenRangeU32x2` | src/random.rs:93-107 | two 32-bit samples; succeeds iff both ranges are samplable (no partial result), both values in their ranges; an empty first range, or an empty second range after a samplable first one, fails with `EmptyRange` |
| `Packing.FastGenRangeU16x1` | src/random.rs:109-115 | the low 16 bits feed one 16-bit sample; success iff samplable, value in range, empty range always fails |
| `Packing.FastGenRangeU16x2` | src/random.rs:117-131 | two 16-bit samples; success iff both ranges are samplable, each value in its range; the first empty range, when every range before it is samplable, makes the call fail with `EmptyRange` |
| `Packing.FastGenRangeU16x3` | src/random.rs:133-151 | three 16-bit samples; success iff all three ranges are samplable, each value in its range; the first empty range, when every range before it is samplable, makes the call fail with `EmptyRange` |
| `Packing.FastGenRangeU16x4` | src/random.rs:153-175 | four 16-bit samples; success iff all four ranges are samplable, each value in its range; the first empty range, when every range before it is samplable, makes the call fail with `EmptyRange` |
| `Packing.SplitJoin16` | src/random.rs:169-173 | the lanes at shifts 0, 16, 32, 48 reassemble the word: `sum_i lane_i * 2^(16 i) == word` |
| `Packing.JoinSplit16` | src/random.rs:169-173 | the lanes of a word assembled from four 16-bit fields are exactly those fields, so the lanes do not overlap |
| `Packing.SplitJoin32` | src/random.rs:103-105 | the two 32-bit halves reassemble the word |
| `Packing.JoinSplit32` | src/random.rs:103-105 | the halves of a word assembled from two 32-bit fields are exactly those fields |
| `Packing.U16x3IgnoresTopBits` | src/random.rs:146-150 | `fast_gen_range_u16x3` depends only on the draw modulo `2^48` |
| `Packing.U64x1Onto` | src/random.rs:77-83 | every value of a samplable range comes out for some 64-bit draw |
| `Packing.U32x1Onto` | src/random.rs:85-91 | every value of a samplable range comes out for some draw |
| `Packing.U32x2Onto` | src/random.rs:93-107 | every pair of values of the two ranges comes out together for some single draw |
| `Packing.U16x1Onto` | src/random.rs:109-115 | every value of a samplable range comes out for some draw |
| `Packing.U16x2Onto` | src/random.rs:117-131 | every pair of values comes out together for some single draw |
| `Packing.U16x3Onto` | src/random.rs:133-151 | every triple of values comes out together for some single draw |
| `Packing.U16x4Onto` | src/random.rs:153-175 | every quadruple of values comes out together for some single draw |

## Left out

- The random source (`Rng::next_u64`, `StdRng::seed_from_u64`) is a foreign library. The one draw per call is the parameter `word`, so the fixed-seed determinism of the tests is not modelled.
- Statistical claims are not modelled: uniformity, independence of the lanes, and the tests' "every value appears within 10,000 draws". They depend on the generator. The deterministic counterparts are proved instead: coverage (`*Onto`) and the exact preimage counts (`PreimageCount`).
- Release-build wrapping arithmetic is not modelled; the model follows a debug build, where an overflowing `+`, `-` or `*` panics. The project's own build script compiles with `cargo build --release` (single.py:8), and the crate's profile settings are not part of this model, so the shipped binary most likely wraps instead. Then:
  - `width()` of a full-domain range wraps to 0: `0..=MAX` for an unsigned type, and `MIN..=MAX` for a signed type. The sampler then always returns `start`.
  - A signed width that overflows in any other way wraps to a negative value. An example is `-100i8..100i8`. The call then fails at the conversion to `uW` ("width must fit in uW") rather than at the subtraction.
- `Sampler.GenRange`: the clause `width() overflows ==> Err(ArithmeticOverflow)` describes the debug build only, for the reason above.
- `BoundedRanges.WidthDefinedIff`: describes the checked, debug-build `width()` only, for the reason above.
- `usize` and `isize` are taken to be 64 bits wide.
- The generic `PrimInt + FromPrimitive` machinery becomes the explicit `IntType` and `WidthClass` enumerations. The conversions are `ToUnsigned`, `FromUnsigned` and `Narrow`.
- The `exhausted` state of an iterated `RangeInclusive` is not modelled. Ranges are taken as freshly built values, as every caller in the source builds them.
- `single.py` is a build-and-run script (cargo, tester and visualiser calls, file moves). It is not part of this model.
