/**
 * The packing driver, `fast_gen_range_*` for the fan-outs (64,1), (32,1),
 * (32,2), (16,1), (16,2), (16,3) and (16,4). Each draws one 64-bit word
 * (here the parameter `word`), cuts it into W-bit lanes at shifts
 * 0/32 or 0/16/32/48, and samples each range from its own lane, the ranges
 * in argument order; the first failing sample's panic is the call's.
 */
module Packing {
  import opened Primitives
  import opened BoundedRanges
  import opened Sampler
  import opened MultiplyShift

  /** `(word >> shift) as uW`: the W-bit lane of the draw that starts at bit `shift`. */
  function Lane(word: nat, shift: nat, c: WidthClass): (f: nat)
    requires shift < 64
    ensures f < c.Modulus()
  {
    Narrow(c, ShiftRight(word, shift))
  }

  // ---------------------------------------------------------------------------
  // The seven drivers

  /** `fast_gen_range_u64x1`: the whole word is the draw. */
  function FastGenRangeU64x1(t: IntType, range: BoundedRange, word: nat): (res: Result<int>)
    requires range.Within(t) && word < WORD_MODULUS
    ensures res.Ok? <==> Samplable(W64, t, range)
    ensures res.Ok? ==> range.Contains(res.value)
    ensures range.IsEmpty() ==> res == Err(EmptyRange)
  {
    GenRange(W64, t, range, word)
  }

  /** `fast_gen_range_u32x1`: the low 32 bits are the draw. */
  function FastGenRangeU32x1(t: IntType, range: BoundedRange, word: nat): (res: Result<int>)
    requires range.Within(t) && word < WORD_MODULUS
    ensures res.Ok? <==> Samplable(W32, t, range)
    ensures res.Ok? ==> range.Contains(res.value)
    ensures range.IsEmpty() ==> res == Err(EmptyRange)
  {
    GenRange(W32, t, range, Narrow(W32, word))
  }

  /** `fast_gen_range_u32x2`: the low and the high half feed one range each. */
  function FastGenRangeU32x2(t0: IntType, range0: BoundedRange, t1: IntType, range1: BoundedRange,
                             word: nat): (res: Result<(int, int)>)
    requires range0.Within(t0) && range1.Within(t1) && word < WORD_MODULUS
    ensures res.Ok? <==> Samplable(W32, t0, range0) && Samplable(W32, t1, range1)
    ensures res.Ok? ==> range0.Contains(res.value.0) && range1.Contains(res.value.1)
    ensures range0.IsEmpty() ==> res == Err(EmptyRange)
    ensures Samplable(W32, t0, range0) && range1.IsEmpty() ==> res == Err(EmptyRange)
  {
    var v0 :- GenRange(W32, t0, range0, Lane(word, 0, W32));
    var v1 :- GenRange(W32, t1, range1, Lane(word, 32, W32));
    Ok((v0, v1))
  }

  /** `fast_gen_range_u16x1`: the low 16 bits are the draw. */
  function FastGenRangeU16x1(t: IntType, range: BoundedRange, word: nat): (res: Result<int>)
    requires range.Within(t) && word < WORD_MODULUS
    ensures res.Ok? <==> Samplable(W16, t, range)
    ensures res.Ok? ==> range.Contains(res.value)
    ensures range.IsEmpty() ==> res == Err(EmptyRange)
  {
    GenRange(W16, t, range, Narrow(W16, word))
  }

  /** `fast_gen_range_u16x2`: bits 0..16 and 16..32 feed one range each. */
  function FastGenRangeU16x2(t0: IntType, range0: BoundedRange, t1: IntType, range1: BoundedRange,
                             word: nat): (res: Result<(int, int)>)
    requires range0.Within(t0) && range1.Within(t1) && word < WORD_MODULUS
    ensures res.Ok? <==> Samplable(W16, t0, range0) && Samplable(W16, t1, range1)
    ensures res.Ok? ==> range0.Contains(res.value.0) && range1.Contains(res.value.1)
    ensures range0.IsEmpty() ==> res == Err(EmptyRange)
    ensures Samplable(W16, t0, range0) && range1.IsEmpty() ==> res == Err(EmptyRange)
  {
    var v0 :- GenRange(W16, t0, range0, Lane(word, 0, W16));
    var v1 :- GenRange(W16, t1, range1, Lane(word, 16, W16));
    Ok((v0, v1))
  }

  /** `fast_gen_range_u16x3`: three 16-bit lanes; bits 48..64 are not used. */
  function FastGenRangeU16x3(t0: IntType, range0: BoundedRange, t1: IntType, range1: BoundedRange,
                             t2: IntType, range2: BoundedRange, word: nat): (res: Result<(int, int, int)>)
    requires range0.Within(t0) && range1.Within(t1) && range2.Within(t2) && word < WORD_MODULUS
    ensures res.Ok? <==> Samplable(W16, t0, range0) && Samplable(W16, t1, range1) && Samplable(W16, t2, range2)
    ensures res.Ok? ==> range0.Contains(res.value.0) && range1.Contains(res.value.1) && range2.Contains(res.value.2)
    ensures range0.IsEmpty() ==> res == Err(EmptyRange)
    ensures Samplable(W16, t0, range0) && range1.IsEmpty() ==> res == Err(EmptyRange)
    ensures (Samplable(W16, t0, range0) && Samplable(W16, t1, range1) && range2.IsEmpty())
              ==> res == Err(EmptyRange)
  {
    var v0 :- GenRange(W16, t0, range0, Lane(word, 0, W16));
    var v1 :- GenRange(W16, t1, range1, Lane(word, 16, W16));
    var v2 :- GenRange(W16, t2, range2, Lane(word, 32, W16));
    Ok((v0, v1, v2))
  }

  /** `fast_gen_range_u16x4`: four 16-bit lanes covering the whole word. */
  function FastGenRangeU16x4(t0: IntType, range0: BoundedRange, t1: IntType, range1: BoundedRange,
                             t2: IntType, range2: BoundedRange, t3: IntType, range3: BoundedRange,
                             word: nat): (res: Result<(int, int, int, int)>)
    requires range0.Within(t0) && range1.Within(t1) && range2.Within(t2) && range3.Within(t3)
    requires word < WORD_MODULUS
    ensures res.Ok? <==> && Samplable(W16, t0, range0) && Samplable(W16, t1, range1)
                         && Samplable(W16, t2, range2) && Samplable(W16, t3, range3)
    ensures res.Ok? ==> && range0.Contains(res.value.0) && range1.Contains(res.value.1)
                        && range2.Contains(res.value.2) && range3.Contains(res.value.3)
    ensures range0.IsEmpty() ==> res == Err(EmptyRange)
    ensures Samplable(W16, t0, range0) && range1.IsEmpty() ==> res == Err(EmptyRange)
    ensures (Samplable(W16, t0, range0) && Samplable(W16, t1, range1) && range2.IsEmpty())
              ==> res == Err(EmptyRange)
    ensures (Samplable(W16, t0, range0) && Samplable(W16, t1, range1) && Samplable(W16, t2, range2)
             && range3.IsEmpty()) ==> res == Err(EmptyRange)
  {
    var v0 :- GenRange(W16, t0, range0, Lane(word, 0, W16));
    var v1 :- GenRange(W16, t1, range1, Lane(word, 16, W16));
    var v2 :- GenRange(W16, t2, range2, Lane(word, 32, W16));
    var v3 :- GenRange(W16, t3, range3, Lane(word, 48, W16));
    Ok((v0, v1, v2, v3))
  }

  // ---------------------------------------------------------------------------
  // The lanes partition the word

  /** The word whose 16-bit lanes, low to high, are `f0 .. f3`. */
  function Join16(f0: nat, f1: nat, f2: nat, f3: nat): nat {
    f0 + 0x1_0000 * f1 + 0x1_0000_0000 * f2 + 0x1_0000_0000_0000 * f3
  }

  /** The word whose 32-bit halves, low and high, are `f0` and `f1`. */
  function Join32(f0: nat, f1: nat): nat {
    f0 + 0x1_0000_0000 * f1
  }

  /** Division by `d` recovers the quotient and remainder a number was built from. */
  lemma DivModOf(x: int, d: int, q: int, r: int)
    requires d > 0 && 0 <= r < d && x == d * q + r
    ensures x / d == q && x % d == r
  {
    FloorIff(x, d, q);
  }

  /** The four 16-bit lanes together make up the word: no bit is lost or shared. */
  lemma SplitJoin16(word: nat)
    requires word < WORD_MODULUS
    ensures Join16(Lane(word, 0, W16), Lane(word, 16, W16), Lane(word, 32, W16), Lane(word, 48, W16)) == word
  {
    // the base-2^16 digits of the word, taken off one at a time
    var q1, f0 := word / 0x1_0000, word % 0x1_0000;
    var q2, f1 := q1 / 0x1_0000, q1 % 0x1_0000;
    var f3, f2 := q2 / 0x1_0000, q2 % 0x1_0000;
    assert word == Join16(f0, f1, f2, f3);
    JoinSplit16(f0, f1, f2, f3);
  }

  /** Each lane of a joined word is the field put there: the lanes do not overlap. */
  lemma JoinSplit16(f0: nat, f1: nat, f2: nat, f3: nat)
    requires f0 < 0x1_0000 && f1 < 0x1_0000 && f2 < 0x1_0000 && f3 < 0x1_0000
    ensures Join16(f0, f1, f2, f3) < WORD_MODULUS
    ensures var word := Join16(f0, f1, f2, f3);
            && Lane(word, 0, W16) == f0 && Lane(word, 16, W16) == f1
            && Lane(word, 32, W16) == f2 && Lane(word, 48, W16) == f3
  {
    Pow2Values();
    var word := Join16(f0, f1, f2, f3);
    var h1, h2 := f1 + 0x1_0000 * (f2 + 0x1_0000 * f3), f2 + 0x1_0000 * f3;
    DivModOf(word, 0x1, word, 0);
    DivModOf(word, 0x1_0000, h1, f0);
    DivModOf(word, 0x1_0000_0000, h2, f0 + 0x1_0000 * f1);
    DivModOf(word, 0x1_0000_0000_0000, f3, f0 + 0x1_0000 * f1 + 0x1_0000_0000 * f2);
    DivModOf(h1, 0x1_0000, f2 + 0x1_0000 * f3, f1);
    DivModOf(h2, 0x1_0000, f3, f2);
    DivModOf(f3, 0x1_0000, 0, f3);
  }

  /** The two 32-bit halves together make up the word. */
  lemma SplitJoin32(word: nat)
    requires word < WORD_MODULUS
    ensures Join32(Lane(word, 0, W32), Lane(word, 32, W32)) == word
  {
    var f1, f0 := word / 0x1_0000_0000, word % 0x1_0000_0000;
    assert word == Join32(f0, f1);
    JoinSplit32(f0, f1);
  }

  /** Each half of a joined word is the field put there. */
  lemma JoinSplit32(f0: nat, f1: nat)
    requires f0 < 0x1_0000_0000 && f1 < 0x1_0000_0000
    ensures Join32(f0, f1) < WORD_MODULUS
    ensures Lane(Join32(f0, f1), 0, W32) == f0 && Lane(Join32(f0, f1), 32, W32) == f1
  {
    Pow2Values();
    var word := Join32(f0, f1);
    DivModOf(word, 0x1, word, 0);
    DivModOf(word, 0x1_0000_0000, f1, f0);
    DivModOf(f1, 0x1_0000_0000, 0, f1);
  }

  /** `fast_gen_range_u16x3` reads only the low 48 bits of the draw. */
  lemma U16x3IgnoresTopBits(t0: IntType, range0: BoundedRange, t1: IntType, range1: BoundedRange,
                            t2: IntType, range2: BoundedRange, word: nat)
    requires range0.Within(t0) && range1.Within(t1) && range2.Within(t2) && word < WORD_MODULUS
    ensures FastGenRangeU16x3(t0, range0, t1, range1, t2, range2, word)
         == FastGenRangeU16x3(t0, range0, t1, range1, t2, range2, word % 0x1_0000_0000_0000)
  {
    var f0, f1, f2, f3 := Lane(word, 0, W16), Lane(word, 16, W16), Lane(word, 32, W16), Lane(word, 48, W16);
    SplitJoin16(word);
    DivModOf(word, 0x1_0000_0000_0000, f3, Join16(f0, f1, f2, 0));
    JoinSplit16(f0, f1, f2, 0);
  }

  // ---------------------------------------------------------------------------
  // Joint coverage: every combination of values comes from some single draw

  /** Every value of a samplable range is produced by some 64-bit draw. */
  lemma U64x1Onto(t: IntType, range: BoundedRange, v: int)
    requires range.Within(t) && Samplable(W64, t, range) && range.Contains(v)
    ensures exists word: nat :: word < WORD_MODULUS && FastGenRangeU64x1(t, range, word) == Ok(v)
  {
    GenRangeOnto(W64, t, range, v);
    var r: nat :| r < W64.Modulus() && GenRange(W64, t, range, r) == Ok(v);
    assert FastGenRangeU64x1(t, range, r) == Ok(v);
  }

  /** Every value of a samplable range is produced by some draw through its low 32 bits. */
  lemma U32x1Onto(t: IntType, range: BoundedRange, v: int)
    requires range.Within(t) && Samplable(W32, t, range) && range.Contains(v)
    ensures exists word: nat :: word < WORD_MODULUS && FastGenRangeU32x1(t, range, word) == Ok(v)
  {
    GenRangeOnto(W32, t, range, v);
    var r: nat :| r < W32.Modulus() && GenRange(W32, t, range, r) == Ok(v);
    NarrowFits(W32, r);
    assert FastGenRangeU32x1(t, range, r) == Ok(v);
  }

  /** Every pair of values of two samplable ranges is produced by some single draw. */
  lemma U32x2Onto(t0: IntType, range0: BoundedRange, t1: IntType, range1: BoundedRange, v0: int, v1: int)
    requires range0.Within(t0) && Samplable(W32, t0, range0) && range0.Contains(v0)
    requires range1.Within(t1) && Samplable(W32, t1, range1) && range1.Contains(v1)
    ensures exists word: nat :: word < WORD_MODULUS
              && FastGenRangeU32x2(t0, range0, t1, range1, word) == Ok((v0, v1))
  {
    GenRangeOnto(W32, t0, range0, v0);
    GenRangeOnto(W32, t1, range1, v1);
    var r0: nat :| r0 < W32.Modulus() && GenRange(W32, t0, range0, r0) == Ok(v0);
    var r1: nat :| r1 < W32.Modulus() && GenRange(W32, t1, range1, r1) == Ok(v1);
    JoinSplit32(r0, r1);
    assert FastGenRangeU32x2(t0, range0, t1, range1, Join32(r0, r1)) == Ok((v0, v1));
  }

  /** Every value of a samplable range is produced by some draw through its low 16 bits. */
  lemma U16x1Onto(t: IntType, range: BoundedRange, v: int)
    requires range.Within(t) && Samplable(W16, t, range) && range.Contains(v)
    ensures exists word: nat :: word < WORD_MODULUS && FastGenRangeU16x1(t, range, word) == Ok(v)
  {
    GenRangeOnto(W16, t, range, v);
    var r: nat :| r < W16.Modulus() && GenRange(W16, t, range, r) == Ok(v);
    NarrowFits(W16, r);
    assert FastGenRangeU16x1(t, range, r) == Ok(v);
  }

  /** Every pair of values of two samplable ranges is produced by some single draw. */
  lemma U16x2Onto(t0: IntType, range0: BoundedRange, t1: IntType, range1: BoundedRange, v0: int, v1: int)
    requires range0.Within(t0) && Samplable(W16, t0, range0) && range0.Contains(v0)
    requires range1.Within(t1) && Samplable(W16, t1, range1) && range1.Contains(v1)
    ensures exists word: nat :: word < WORD_MODULUS
              && FastGenRangeU16x2(t0, range0, t1, range1, word) == Ok((v0, v1))
  {
    GenRangeOnto(W16, t0, range0, v0);
    GenRangeOnto(W16, t1, range1, v1);
    var r0: nat :| r0 < W16.Modulus() && GenRange(W16, t0, range0, r0) == Ok(v0);
    var r1: nat :| r1 < W16.Modulus() && GenRange(W16, t1, range1, r1) == Ok(v1);
    JoinSplit16(r0, r1, 0, 0);
    assert FastGenRangeU16x2(t0, range0, t1, range1, Join16(r0, r1, 0, 0)) == Ok((v0, v1));
  }

  /** Every triple of values of three samplable ranges is produced by some single draw. */
  lemma U16x3Onto(t0: IntType, range0: BoundedRange, t1: IntType, range1: BoundedRange,
                  t2: IntType, range2: BoundedRange, v0: int, v1: int, v2: int)
    requires range0.Within(t0) && Samplable(W16, t0, range0) && range0.Contains(v0)
    requires range1.Within(t1) && Samplable(W16, t1, range1) && range1.Contains(v1)
    requires range2.Within(t2) && Samplable(W16, t2, range2) && range2.Contains(v2)
    ensures exists word: nat :: word < WORD_MODULUS
              && FastGenRangeU16x3(t0, range0, t1, range1, t2, range2, word) == Ok((v0, v1, v2))
  {
    GenRangeOnto(W16, t0, range0, v0);
    GenRangeOnto(W16, t1, range1, v1);
    GenRangeOnto(W16, t2, range2, v2);
    var r0: nat :| r0 < W16.Modulus() && GenRange(W16, t0, range0, r0) == Ok(v0);
    var r1: nat :| r1 < W16.Modulus() && GenRange(W16, t1, range1, r1) == Ok(v1);
    var r2: nat :| r2 < W16.Modulus() && GenRange(W16, t2, range2, r2) == Ok(v2);
    JoinSplit16(r0, r1, r2, 0);
    assert FastGenRangeU16x3(t0, range0, t1, range1, t2, range2, Join16(r0, r1, r2, 0)) == Ok((v0, v1, v2));
  }

  /** Every quadruple of values of four samplable ranges is produced by some single draw. */
  lemma U16x4Onto(t0: IntType, range0: BoundedRange, t1: IntType, range1: BoundedRange,
                  t2: IntType, range2: BoundedRange, t3: IntType, range3: BoundedRange,
                  v0: int, v1: int, v2: int, v3: int)
    requires range0.Within(t0) && Samplable(W16, t0, range0) && range0.Contains(v0)
    requires range1.Within(t1) && Samplable(W16, t1, range1) && range1.Contains(v1)
    requires range2.Within(t2) && Samplable(W16, t2, range2) && range2.Contains(v2)
    requires range3.Within(t3) && Samplable(W16, t3, range3) && range3.Contains(v3)
    ensures exists word: nat :: word < WORD_MODULUS
              && FastGenRangeU16x4(t0, range0, t1, range1, t2, range2, t3, range3, word) == Ok((v0, v1, v2, v3))
  {
    GenRangeOnto(W16, t0, range0, v0);
    GenRangeOnto(W16, t1, range1, v1);
    GenRangeOnto(W16, t2, range2, v2);
    GenRangeOnto(W16, t3, range3, v3);
    var r0: nat :| r0 < W16.Modulus() && GenRange(W16, t0, range0, r0) == Ok(v0);
    var r1: nat :| r1 < W16.Modulus() && GenRange(W16, t1, range1, r1) == Ok(v1);
    var r2: nat :| r2 < W16.Modulus() && GenRange(W16, t2, range2, r2) == Ok(v2);
    var r3: nat :| r3 < W16.Modulus() && GenRange(W16, t3, range3, r3) == Ok(v3);
    JoinSplit16(r0, r1, r2, r3);
    assert FastGenRangeU16x4(t0, range0, t1, range1, t2, range2, t3, range3, Join16(r0, r1, r2, r3))
        == Ok((v0, v1, v2, v3));
  }
}
