/** The tetration calculator object: a base and a height, both 128-bit unsigned,
    with setters, getters and the evaluator loop. */
module TetrationCalculator {
  import opened BigNat
  import opened Tetration

  class Calculator {
    var base: u128
    var height: u128

    /** A fresh calculator holds base 1 and height 0. */
    constructor ()
      ensures base == 1 && height == 0
    {
      base := 1;
      height := 0;
    }

    method SetBase(value: u128)
      modifies this
      ensures base == value
      ensures height == old(height)
    {
      base := value;
    }

    method GetBase() returns (r: u128)
      ensures r == base
    {
      r := base;
    }

    method SetHeight(value: u128)
      modifies this
      ensures height == value
      ensures base == old(base)
    {
      height := value;
    }

    method GetHeight() returns (r: u128)
      ensures r == height
    {
      r := height;
    }

    /** Builds the tower bottom-up in an exact accumulator, narrowing it to a 32-bit
        exponent before each step. It succeeds with the tower of the current base and
        height exactly when every intermediate tower fits; otherwise it reports None.
        The method reads the calculator and changes nothing. */
    method CalculateTetration() returns (r: Option<nat>)
      ensures r.Some? <==> AllFit(base as nat, height as nat)
      ensures r.Some? ==> r.value == Tet(base as nat, height as nat)
    {
      var acc: nat := 1;
      var h := height;
      ghost var passes: nat := 0;
      while h > 0
        invariant h <= height
        invariant passes == (height - h) as nat
        invariant acc == Tet(base as nat, passes)
        invariant AllFit(base as nat, passes)
        decreases h
      {
        match ToU32(acc) {
          case None =>
            assert Tet(base as nat, passes) > U32_MAX;
            return None;
          case Some(e) =>
            acc := Pow(base as nat, e as nat);
        }
        h := h - 1;
        passes := passes + 1;
      }
      assert passes == height as nat;
      r := Some(acc);
    }
  }

  /** A calculator straight from its constructor evaluates to 1 (the empty tower). */
  method FreshCalculatorEvaluatesToOne() returns (r: Option<nat>)
    ensures r == Some(1)
  {
    var calculator := new Calculator();
    r := calculator.CalculateTetration();
  }

  /** Each setter is read back by its getter, and setting one field leaves the other
      as it was, whatever the calculator held before. */
  method AccessorsRoundTrip(c: Calculator, x: u128, y: u128) returns (b: u128, h: u128)
    modifies c
    ensures b == x && h == y
  {
    c.SetBase(x);
    c.SetHeight(y);
    b := c.GetBase();
    h := c.GetHeight();
  }

  /** Setting (3, 3) and evaluating yields 3^^3 = 7625597484987; raising the height
      to 4 then overflows and yields None. */
  method BaseThreeScenario() returns (r3: Option<nat>, r4: Option<nat>)
    ensures r3 == Some(7625597484987)
    ensures r4 == None
  {
    var calculator := new Calculator();
    calculator.SetBase(3);
    calculator.SetHeight(3);
    BaseThreeCases();
    r3 := calculator.CalculateTetration();
    calculator.SetHeight(4);
    r4 := calculator.CalculateTetration();
  }
}
