/**
 * The primitive integer machinery the sampler is written against: the element
 * types that satisfy `PrimInt + FromPrimitive`, the three width classes of the
 * random input, and the few integer operations the sampler performs on them
 * (checked addition and subtraction, `to_uW`/`from_uW` conversions, `as uW`
 * truncation and `>>` on a 64-bit word), each stated on unbounded integers
 * with its overflow behaviour written out.
 */
module Primitives {

  datatype Option<T> = None | Some(value: T)

  /** 2^k, the factor that `x >> k` divides by. */
  function Pow2(k: nat): (p: nat)
    ensures p > 0
  {
    if k == 0 then 1 else 2 * Pow2(k - 1)
  }

  /** The powers of two that the shifts and width classes use. */
  lemma Pow2Values()
    ensures Pow2(16) == 0x1_0000
    ensures Pow2(32) == 0x1_0000_0000
    ensures Pow2(48) == 0x1_0000_0000_0000
    ensures Pow2(64) == 0x1_0000_0000_0000_0000
  {
    assert Pow2(8) == 0x100;
    Pow2Add(8, 8);
    Pow2Add(16, 16);
    Pow2Add(32, 16);
    Pow2Add(32, 32);
  }

  lemma {:induction false} Pow2Add(a: nat, b: nat)
    ensures Pow2(a + b) == Pow2(a) * Pow2(b)
  {
    if b > 0 {
      Pow2Add(a, b - 1);
    }
  }

  const WORD_MODULUS: nat := 0x1_0000_0000_0000_0000  // 2^64, the range of one `next_u64()` draw

  /**
   * The primitive integer types an element of a range can have. `usize` and
   * `isize` are taken to be 64 bits wide.
   */
  datatype IntType = U8 | U16 | U32 | U64 | U128 | Usize | I8 | I16 | I32 | I64 | I128 | Isize
  {
    function Min(): int {
      match this
      case U8 | U16 | U32 | U64 | U128 | Usize => 0
      case I8 => -0x80
      case I16 => -0x8000
      case I32 => -0x8000_0000
      case I64 | Isize => -0x8000_0000_0000_0000
      case I128 => -0x8000_0000_0000_0000_0000_0000_0000_0000
    }

    function Max(): int {
      match this
      case U8 => 0xFF
      case U16 => 0xFFFF
      case U32 => 0xFFFF_FFFF
      case U64 | Usize => 0xFFFF_FFFF_FFFF_FFFF
      case U128 => 0xFFFF_FFFF_FFFF_FFFF_FFFF_FFFF_FFFF_FFFF
      case I8 => 0x7F
      case I16 => 0x7FFF
      case I32 => 0x7FFF_FFFF
      case I64 | Isize => 0x7FFF_FFFF_FFFF_FFFF
      case I128 => 0x7FFF_FFFF_FFFF_FFFF_FFFF_FFFF_FFFF_FFFF
    }

    /** `x` is a value of this type. */
    predicate Holds(x: int) {
      Min() <= x <= Max()
    }
  }

  /** The bit width W of the random input one sampler call consumes. */
  datatype WidthClass = W16 | W32 | W64
  {
    function Bits(): nat {
      match this
      case W16 => 16
      case W32 => 32
      case W64 => 64
    }

    /** 2^W: the values of `uW` are exactly `0 .. Modulus()` (see `ModulusIsPow2`). */
    function Modulus(): nat {
      match this
      case W16 => 0x1_0000
      case W32 => 0x1_0000_0000
      case W64 => 0x1_0000_0000_0000_0000
    }
  }

  /** Dividing by `Modulus()` is the shift `>> Bits()`: the modulus is `2^W`. */
  lemma ModulusIsPow2(c: WidthClass)
    ensures c.Modulus() == Pow2(c.Bits())
  {
    Pow2Values();
  }

  /** `a + b` in type `t`, as a debug build evaluates it: `None` is the overflow panic. */
  function CheckedAdd(t: IntType, a: int, b: int): Option<int> {
    if t.Holds(a + b) then Some(a + b) else None
  }

  /** `a - b` in type `t`, as a debug build evaluates it: `None` is the overflow panic. */
  function CheckedSub(t: IntType, a: int, b: int): Option<int> {
    if t.Holds(a - b) then Some(a - b) else None
  }

  /** `ToPrimitive::to_uW`: `None` when `x` is not a value of `uW`. */
  function ToUnsigned(c: WidthClass, x: int): Option<nat> {
    if 0 <= x < c.Modulus() then Some(x) else None
  }

  /** `FromPrimitive::from_uW` into `t`: `None` when `x` is not a value of `t`. */
  function FromUnsigned(t: IntType, x: nat): Option<int> {
    if t.Holds(x) then Some(x) else None
  }

  /** `x as uW`: keeps the low W bits. */
  function Narrow(c: WidthClass, x: nat): nat {
    x % c.Modulus()
  }

  /** Narrowing a value that already fits in W bits does not change it. */
  lemma NarrowFits(c: WidthClass, x: nat)
    requires x < c.Modulus()
    ensures Narrow(c, x) == x
  {
  }

  /** `x >> k` on an unsigned word; the shift amount is below 64 wherever it is used. */
  function ShiftRight(x: nat, k: nat): nat
    requires k < 64
  {
    var p := Pow2(k);
    QuotientNat(x, p);
    x / p
  }

  lemma QuotientNat(x: nat, p: nat)
    requires p > 0
    ensures x / p >= 0
  {
  }
}
