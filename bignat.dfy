/** The two operations of the arbitrary-precision unsigned integer type that the
    tetration evaluator relies on: exact exponentiation by a 32-bit exponent and
    narrowing to a 32-bit unsigned integer. Magnitudes are mathematical `nat`s. */
module BigNat {

  datatype Option<+T> = None | Some(value: T)

  /** Largest value of a 32-bit unsigned integer, 2^32 - 1. */
  const U32_MAX: nat := 0xFFFF_FFFF

  newtype u32 = x: int | 0 <= x < 0x1_0000_0000

  newtype u128 = x: int | 0 <= x < 0x1_0000_0000_0000_0000_0000_0000_0000_0000

  /** Exact exponentiation, with the convention 0^0 = 1. */
  function Pow(b: nat, e: nat): nat
  {
    if e == 0 then 1 else b * Pow(b, e - 1)
  }

  /** Narrowing to a 32-bit unsigned integer: present exactly when the value is in range. */
  function ToU32(x: nat): (r: Option<u32>)
    ensures r.Some? <==> x <= U32_MAX
    ensures r.Some? ==> r.value as nat == x
  {
    if x <= U32_MAX then Some(x as u32) else None
  }

  lemma {:induction false} PowPositive(b: nat, e: nat)
    requires b >= 1
    ensures Pow(b, e) >= 1
  {
    if e > 0 {
      PowPositive(b, e - 1);
    }
  }

  lemma {:induction false} PowOfOne(e: nat)
    ensures Pow(1, e) == 1
  {
    if e > 0 {
      PowOfOne(e - 1);
    }
  }

  lemma PowOfZero(e: nat)
    ensures Pow(0, e) == if e == 0 then 1 else 0
  {
  }

  lemma {:induction false} PowAdd(b: nat, e1: nat, e2: nat)
    ensures Pow(b, e1 + e2) == Pow(b, e1) * Pow(b, e2)
  {
    if e2 > 0 {
      PowAdd(b, e1, e2 - 1);
      calc {
        Pow(b, e1 + e2);
        b * Pow(b, e1 + e2 - 1);
        b * (Pow(b, e1) * Pow(b, e2 - 1));
        Pow(b, e1) * (b * Pow(b, e2 - 1));
        Pow(b, e1) * Pow(b, e2);
      }
    }
  }

  lemma {:induction false} PowMul(b: nat, e1: nat, e2: nat)
    ensures Pow(b, e1 * e2) == Pow(Pow(b, e1), e2)
  {
    if e2 > 0 {
      PowMul(b, e1, e2 - 1);
      assert e1 * e2 == e1 * (e2 - 1) + e1;
      PowAdd(b, e1 * (e2 - 1), e1);
      assert Pow(b, e1 * e2) == Pow(Pow(b, e1), e2 - 1) * Pow(b, e1);
    }
  }

  /** For a base of at least 2 the power outgrows its exponent. */
  lemma {:induction false} PowExceedsExponent(b: nat, e: nat)
    requires b >= 2
    ensures Pow(b, e) > e
  {
    if e > 0 {
      PowExceedsExponent(b, e - 1);
      PowPositive(b, e - 1);
      assert b * Pow(b, e - 1) >= 2 * Pow(b, e - 1);
    }
  }

  lemma {:induction false} PowMonotoneInExponent(b: nat, e1: nat, e2: nat)
    requires b >= 1 && e1 <= e2
    ensures Pow(b, e1) <= Pow(b, e2)
  {
    if e1 < e2 {
      PowMonotoneInExponent(b, e1, e2 - 1);
      PowPositive(b, e2 - 1);
      assert b * Pow(b, e2 - 1) >= Pow(b, e2 - 1);
    }
  }

  lemma {:induction false} PowMonotoneInBase(b1: nat, b2: nat, e: nat)
    requires b1 <= b2
    ensures Pow(b1, e) <= Pow(b2, e)
  {
    if e > 0 {
      PowMonotoneInBase(b1, b2, e - 1);
      assert b1 * Pow(b1, e - 1) <= b2 * Pow(b1, e - 1) <= b2 * Pow(b2, e - 1);
    }
  }
}
