/** The mathematical specification of tetration and of the evaluator's overflow
    policy: the evaluator succeeds exactly when every exponent it has to narrow
    fits in a 32-bit unsigned integer. */
module Tetration {
  import opened BigNat

  /** The power tower of height n over b: Tet(b, 0) = 1, Tet(b, n + 1) = b ^ Tet(b, n). */
  function Tet(b: nat, n: nat): nat
  {
    if n == 0 then 1 else Pow(b, Tet(b, n - 1))
  }

  /** Every tower strictly below height n fits in a 32-bit exponent, so each of the
      n exponentiation steps can narrow its accumulator. */
  predicate AllFit(b: nat, n: nat)
  {
    forall k: nat :: k < n ==> Tet(b, k) <= U32_MAX
  }

  /** Height 0 is the empty tower 1; height 1 is the base itself; neither overflows. */
  lemma HeightZeroAndOne(b: nat)
    ensures AllFit(b, 0) && Tet(b, 0) == 1
    ensures AllFit(b, 1) && Tet(b, 1) == b
  {
    assert Tet(b, 0) == 1;
    assert Pow(b, 1) == b * Pow(b, 0);
  }

  /** Base 1 gives 1 at every height and never overflows. */
  lemma {:induction false} BaseOne(n: nat)
    ensures Tet(1, n) == 1
    ensures AllFit(1, n)
  {
    if n > 0 {
      BaseOne(n - 1);
      PowOfOne(Tet(1, n - 1));
    }
  }

  /** Base 0 alternates 1, 0, 1, 0, ... (using 0^0 = 1) and never overflows. */
  lemma {:induction false} BaseZero(n: nat)
    ensures Tet(0, n) == if n % 2 == 0 then 1 else 0
    ensures AllFit(0, n)
  {
    if n > 0 {
      BaseZero(n - 1);
      PowOfZero(Tet(0, n - 1));
    }
  }

  /** For a base of at least 2 each extra level makes the tower strictly larger. */
  lemma TetStrictlyIncreasing(b: nat, n: nat)
    requires b >= 2
    ensures Tet(b, n) < Tet(b, n + 1)
  {
    PowExceedsExponent(b, Tet(b, n));
  }

  lemma {:induction false} TetPositive(b: nat, n: nat)
    requires b >= 1
    ensures Tet(b, n) >= 1
  {
    if n > 0 {
      PowPositive(b, Tet(b, n - 1));
    }
  }

  /** For a positive base the tower never shrinks as the height grows. */
  lemma {:induction false} TetMonotoneInHeight(b: nat, m: nat, n: nat)
    requires b >= 1 && m <= n
    ensures Tet(b, m) <= Tet(b, n)
  {
    if m < n {
      TetMonotoneInHeight(b, m, n - 1);
      if b == 1 {
        BaseOne(n - 1);
        BaseOne(n);
      } else {
        TetStrictlyIncreasing(b, n - 1);
      }
    }
  }

  /** For positive bases a larger base gives a tower at least as large. */
  lemma {:induction false} TetMonotoneInBase(b1: nat, b2: nat, n: nat)
    requires 1 <= b1 <= b2
    ensures Tet(b1, n) <= Tet(b2, n)
  {
    if n > 0 {
      TetMonotoneInBase(b1, b2, n - 1);
      PowMonotoneInBase(b1, b2, Tet(b1, n - 1));
      PowMonotoneInExponent(b2, Tet(b1, n - 1), Tet(b2, n - 1));
    }
  }

  /** For a positive base, overflow is decided by the last exponent alone: the
      evaluation of height n succeeds exactly when Tet(b, n - 1) fits. */
  lemma AllFitByLastExponent(b: nat, n: nat)
    requires b >= 1 && n >= 1
    ensures AllFit(b, n) <==> Tet(b, n - 1) <= U32_MAX
  {
    if Tet(b, n - 1) <= U32_MAX {
      forall k: nat | k < n
        ensures Tet(b, k) <= U32_MAX
      {
        TetMonotoneInHeight(b, k, n - 1);
      }
    }
  }

  /** A successful evaluation of height n also succeeds at every lower height. */
  lemma AllFitPrefixClosed(b: nat, m: nat, n: nat)
    requires m <= n && AllFit(b, n)
    ensures AllFit(b, m)
  {
  }

  lemma PowThreeTwentySeven()
    ensures Pow(3, 27) == 7625597484987
  {
    PowMul(3, 3, 9);
    assert Pow(3, 3) == 27;
    PowMul(27, 3, 3);
    assert Pow(27, 3) == 19683;
    assert Pow(19683, 3) == 7625597484987;
  }

  lemma PowTwoSixteen()
    ensures Pow(2, 16) == 65536
  {
    PowMul(2, 4, 4);
    assert Pow(2, 4) == 16;
    assert Pow(16, 4) == 65536;
  }

  /** Towers over 3: 1, 3, 27, 7625597484987; height 4 needs the exponent
      7625597484987, which is beyond 2^32 - 1. */
  lemma BaseThreeCases()
    ensures Tet(3, 3) == 7625597484987 && AllFit(3, 3)
    ensures !AllFit(3, 4)
  {
    assert Tet(3, 1) == 3 by { HeightZeroAndOne(3); }
    assert Tet(3, 2) == 27;
    PowThreeTwentySeven();
    AllFitByLastExponent(3, 3);
    AllFitByLastExponent(3, 4);
  }

  /** Towers over 2: 1, 2, 4, 16, 65536, 2^65536; height 6 needs the exponent
      2^65536, which is beyond 2^32 - 1. */
  lemma BaseTwoCases()
    ensures Tet(2, 2) == 4 && Tet(2, 3) == 16 && Tet(2, 4) == 65536
    ensures Tet(2, 5) == Pow(2, 65536) && AllFit(2, 5)
    ensures !AllFit(2, 6)
  {
    assert Tet(2, 1) == 2 by { HeightZeroAndOne(2); }
    assert Tet(2, 2) == 4;
    assert Tet(2, 3) == 16;
    PowTwoSixteen();
    assert Tet(2, 4) == 65536;
    AllFitByLastExponent(2, 5);
    PowMul(2, 16, 2);
    assert Pow(2, 32) == 4294967296;
    PowMonotoneInExponent(2, 32, 65536);
    AllFitByLastExponent(2, 6);
  }

  /** Only small pairs are feasible: every height of at least 4 overflows for a base
      of at least 3, and every height of at least 6 overflows for base 2. */
  lemma OverflowThreshold(b: nat, n: nat)
    requires (b >= 3 && n >= 4) || (b == 2 && n >= 6)
    ensures !AllFit(b, n)
  {
    if b >= 3 {
      BaseThreeCases();
      TetMonotoneInBase(3, b, 3);
      assert Tet(b, 3) > U32_MAX;
    } else {
      BaseTwoCases();
      AllFitByLastExponent(2, 6);
      assert Tet(2, 5) > U32_MAX;
    }
  }
}
