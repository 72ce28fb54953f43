/**
 * Multiply-shift range reduction: a draw `r` in `[0, m)` (with `m = 2^W`) is
 * mapped to `floor(w * r / m)`, i.e. `(w * r) >> W` computed in a 2W-bit
 * product. The facts here are stated for any modulus `m > 0`; the sampler
 * uses them with `m = 2^16, 2^32, 2^64`.
 */
module MultiplyShift {

  /** `((w as u2W) * (r as u2W)) >> W` for `m = 2^W`. */
  function MulShift(w: nat, r: nat, m: nat): nat
    requires m > 0
  {
    (w * r) / m
  }

  /** `(w as u2W) * (r as u2W)` does not overflow the 2W-bit intermediate. */
  predicate ProductFits(w: nat, r: nat, m: nat) {
    w * r < m * m
  }

  /**
   * `ceil(v * m / w)`: the smallest draw whose reduction is at least `v`
   * (see `PreimageInterval`).
   */
  function FirstDraw(w: nat, v: nat, m: nat): nat
    requires w > 0
  {
    (v * m + w - 1) / w
  }

  // ---------------------------------------------------------------------------
  // Arithmetic helpers

  lemma MulMonotone(k: int, a: int, b: int)
    requires k >= 0 && a <= b
    ensures k * a <= k * b
  {
    assert k * b - k * a == k * (b - a);
  }

  lemma MulCancelLt(k: int, a: int, b: int)
    requires k > 0 && k * a < k * b
    ensures a < b
  {
    if a >= b {
      MulMonotone(k, b, a);
    }
  }

  /** Floor division by `d` brackets its argument. */
  lemma DivBracket(x: int, d: int)
    requires d > 0
    ensures d * (x / d) <= x < d * (x / d) + d
  {
  }

  /** `x / d == q` exactly when `q` is the multiple of `d` just below `x`. */
  lemma FloorIff(x: int, d: int, q: int)
    requires d > 0
    ensures x / d == q <==> d * q <= x < d * q + d
  {
    DivBracket(x, d);
    var q' := x / d;
    if d * q <= x < d * q + d && q != q' {
      if q < q' {
        MulMonotone(d, q + 1, q');
      } else {
        MulMonotone(d, q' + 1, q);
      }
    }
  }

  /** `ceil(a / w) <= r` exactly when `a <= w * r`. */
  lemma CeilIff(a: int, w: int, r: int)
    requires w > 0
    ensures (a + w - 1) / w <= r <==> a <= w * r
  {
    var c := (a + w - 1) / w;
    DivBracket(a + w - 1, w);
    if c <= r {
      MulMonotone(w, c, r);
    } else {
      MulMonotone(w, r, c - 1);
    }
  }

  // ---------------------------------------------------------------------------
  // Properties of the reduction

  /**
   * The reduction lands below the width: for `0 < w` and a draw `r < m` the
   * product `w * r` fits in the double-width intermediate when `w < m`, and
   * `(w * r) >> W < w`, so narrowing it back to W bits loses nothing.
   */
  lemma MulShiftBelow(w: nat, r: nat, m: nat)
    requires 0 < w && r < m
    ensures MulShift(w, r, m) < w
    ensures w < m ==> ProductFits(w, r, m)
  {
    var q := MulShift(w, r, m);
    DivBracket(w * r, m);
    MulMonotone(w, r + 1, m);
    if q >= w {
      MulMonotone(m, w, q);
    }
    if w < m {
      MulMonotone(r, w, m);
      MulMonotone(m, r + 1, m);
    }
  }

  /**
   * The draws that reduce to `v` form the interval
   * `[FirstDraw(v), FirstDraw(v + 1))`: the reduction is monotone and its
   * preimages are contiguous.
   */
  lemma PreimageInterval(w: nat, r: nat, v: nat, m: nat)
    requires 0 < w && 0 < m
    ensures MulShift(w, r, m) == v <==> FirstDraw(w, v, m) <= r < FirstDraw(w, v + 1, m)
  {
    FloorIff(w * r, m, v);
    CeilIff(v * m, w, r);
    CeilIff((v + 1) * m, w, r);
    assert m * v == v * m;
    assert m * v + m == (v + 1) * m;
  }

  /**
   * Every value below the width is produced by some draw, namely
   * `FirstDraw(v)`, as long as the width does not exceed `m`.
   */
  lemma MulShiftOnto(w: nat, v: nat, m: nat)
    requires 0 < w <= m && v < w
    ensures FirstDraw(w, v, m) < m
    ensures MulShift(w, FirstDraw(w, v, m), m) == v
  {
    var r := FirstDraw(w, v, m);
    DivBracket(v * m + w - 1, w);
    // w * r <= v * m + w - 1 <= (w - 1) * m + w - 1 < w * m
    MulMonotone(m, v, w - 1);
    assert m * (w - 1) == w * m - m;
    MulCancelLt(w, r, m);
    PreimageInterval(w, r, v, m);
    CeilIff((v + 1) * m, w, r);
    assert (v + 1) * m == v * m + m;
  }

  /**
   * The bias of the reduction is bounded: each of the `w` values has either
   * `floor(m / w)` or `floor(m / w) + 1` preimages among the `m` draws.
   */
  lemma PreimageCount(w: nat, v: nat, m: nat)
    requires 0 < w <= m
    ensures m / w <= FirstDraw(w, v + 1, m) - FirstDraw(w, v, m) <= m / w + 1
  {
    var a := v * m;
    assert (v + 1) * m + w - 1 == a + m + w - 1;
    DivBracket(a + w - 1, w);
    DivBracket(a + m + w - 1, w);
    DivBracket(m, w);
    CountFromProducts(w, FirstDraw(w, v, m), FirstDraw(w, v + 1, m), m / w, a, m);
  }

  /**
   * Two ceilings `c0 = ceil(a / w)` and `c1 = ceil((a + m) / w)` lie
   * `floor(m / w)` or one more apart.
   */
  lemma CountFromProducts(w: int, c0: int, c1: int, q: int, a: int, m: int)
    requires w > 0
    requires w * c0 <= a + w - 1 < w * c0 + w
    requires w * c1 <= a + m + w - 1 < w * c1 + w
    requires w * q <= m < w * q + w
    ensures q <= c1 - c0 <= q + 1
  {
    // m - w < w * (c1 - c0) < m + w, and w * q <= m < w * q + w
    CountCore(w * c0, w * c1, w * q, a, m, w);
    assert w * (c1 - c0) == w * c1 - w * c0;
    assert w * (q - 1) == w * q - w;
    assert w * (q + 2) == w * q + 2 * w;
    MulCancelLt(w, q - 1, c1 - c0);
    MulCancelLt(w, c1 - c0, q + 2);
  }

  /** The linear core of `CountFromProducts`, with the products as plain numbers. */
  lemma CountCore(x0: int, x1: int, y: int, a: int, m: int, w: int)
    requires x0 <= a + w - 1 < x0 + w
    requires x1 <= a + m + w - 1 < x1 + w
    requires y <= m < y + w
    ensures y - w < x1 - x0 < y + 2 * w
  {
  }
}
