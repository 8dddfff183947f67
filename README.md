# Tetration calculator — Dafny model

This project models the tetration evaluator of the Tetration-Calculator program.
The evaluator is the `TetrationCalculator` struct. It holds a 128-bit unsigned
`base` and `height`. It computes the power tower `base^^height` exactly, starting
from an accumulator of 1 and raising `base` to the accumulator `height` times.
Before each step it narrows the accumulator to a 32-bit unsigned exponent. If
that narrowing ever fails, the result is `None`.

Layout:

- `bignat.dfy` (module `BigNat`) models the two big-integer operations the evaluator
  uses. `Pow` is exact exponentiation with `0^0 = 1`. `ToU32` narrows a value to
  32 bits. The module also defines the `u32`/`u128` newtypes, an `Option` datatype
  and the algebra of `Pow`.
- `tetration.dfy` (module `Tetration`) holds the specification. `Tet(b, 0) = 1` and
  `Tet(b, n + 1) = Pow(b, Tet(b, n))`. `AllFit(b, n)` says every tower below height
  `n` is at most 2^32 − 1. The lemmas cover the small bases, monotonicity, the
  concrete cases and the overflow thresholds.
- `calculator.dfy` (module `TetrationCalculator`) holds the class `Calculator`.
  Its fields `base: u128` and `height: u128` are bounded by their type, so the
  class needs no separate invariant. It has the constructor, the setters, the
  getters and the evaluator loop, plus three methods that exercise the object
  the way the program's driver does.

`CalculateTetration` has no `modifies` clause. Dafny therefore guarantees that it
leaves `base` and `height` unchanged, matching the source's `&self` receiver. The
loop's `decreases h` shows that its body runs at most `height` times. The ghost
counter `passes` records how many passes have run.

## Model

| member | source | states |
|---|---|---|
| TetrationCalculator.Calculator.constructor | src/tetration_calculator.rs:44-50 | a new calculator has base 1 and height 0 |
| TetrationCalculator.Calculator.SetBase | src/tetration_calculator.rs:53-55 | the base becomes the given value and the height is unchanged |
| TetrationCalculator.Calculator.GetBase | src/tetration_calculator.rs:58-60 | returns the current base |
| TetrationCalculator.Calculator.SetHeight | src/tetration_calculator.rs:63-65 | the height becomes the given value and the base is unchanged |
| TetrationCalculator.Calculator.GetHeight | src/tetration_calculator.rs:68-70 | returns the current height |
| TetrationCalculator.Calculator.CalculateTetration | src/tetration_calculator.rs:73-87 | returns Some exactly when every tower Tet(base, k) with k < height fits in 32 bits; a Some result is Tet(base, height); the fields are not modified |
| TetrationCalculator.FreshCalculatorEvaluatesToOne | src/tetration_calculator.rs:44-50 | evaluating a freshly constructed calculator gives Some(1) |
| TetrationCalculator.AccessorsRoundTrip | src/tetration_calculator.rs:53-70 | after setting base x and then height y, the getters return x and y |
| TetrationCalculator.BaseThreeScenario | src/tetration_calculator.rs:77-85 | with base 3, height 3 gives Some(7625597484987) and height 4 gives None |
| BigNat.ToU32 | src/tetration_calculator.rs:80-82 | narrowing succeeds exactly when the value is at most 2^32 − 1 and then keeps the value |
| BigNat.PowAdd | src/tetration_calculator.rs:81 | b^(e1+e2) = b^e1 · b^e2 |
| BigNat.PowMul | src/tetration_calculator.rs:81 | b^(e1·e2) = (b^e1)^e2 |
| BigNat.PowExceedsExponent | src/tetration_calculator.rs:81 | for b ≥ 2, b^e > e |
| BigNat.PowMonotoneInExponent | src/tetration_calculator.rs:81 | for b ≥ 1, the power does not decrease as the exponent grows |
| BigNat.PowMonotoneInBase | src/tetration_calculator.rs:81 | the power does not decrease as the base grows |
| BigNat.PowOfOne | src/tetration_calculator.rs:81 | 1^e = 1 |
| BigNat.PowOfZero | src/tetration_calculator.rs:81 | 0^0 = 1 and 0^e = 0 for e > 0 |
| Tetration.HeightZeroAndOne | src/tetration_calculator.rs:74-86 | height 0 gives 1 and height 1 gives the base, for every base, with no overflow |
| Tetration.BaseOne | src/tetration_calculator.rs:77-85 | base 1 gives 1 at every height and never overflows |
| Tetration.BaseZero | src/tetration_calculator.rs:77-85 | base 0 gives 1 at even heights and 0 at odd heights, and never overflows |
| Tetration.TetStrictlyIncreasing | src/tetration_calculator.rs:77-85 | for base ≥ 2, each extra level gives a strictly larger tower |
| Tetration.TetMonotoneInHeight | src/tetration_calculator.rs:77-85 | for base ≥ 1, a taller tower is never smaller |
| Tetration.TetMonotoneInBase | src/tetration_calculator.rs:77-85 | for bases 1 ≤ b1 ≤ b2, the tower over b1 is at most the tower over b2 |
| Tetration.AllFitByLastExponent | src/tetration_calculator.rs:80-82 | for base ≥ 1 and height n ≥ 1, evaluation succeeds exactly when Tet(b, n − 1) fits in 32 bits |
| Tetration.AllFitPrefixClosed | src/tetration_calculator.rs:77-85 | if evaluation succeeds at height n, it succeeds at every lower height |
| Tetration.BaseThreeCases | src/tetration_calculator.rs:77-85 | Tet(3, 3) = 7625597484987 and succeeds; height 4 overflows |
| Tetration.BaseTwoCases | src/tetration_calculator.rs:77-85 | Tet(2, 2..4) = 4, 16, 65536; Tet(2, 5) = 2^65536 and succeeds; height 6 overflows |
| Tetration.OverflowThreshold | src/tetration_calculator.rs:80-82 | every height ≥ 4 overflows for base ≥ 3, and every height ≥ 6 overflows for base 2 |

## Left out

- The interactive driver is not modelled. This covers `validate_input`, `display_tetration_result`, the free function `calculate_tetration` and the menu loop `main` (src/tetration_calculator.rs:95-244). They consist of console prompts, printing, locale digit formatting and wall-clock timing.
- The driver's rule that rejects a zero entry is not modelled (src/tetration_calculator.rs:103). It is input policy. The evaluator itself accepts 0 for both fields.
- Command-line parsing and dispatch in src/main.rs are not modelled.
- Arbitrary-precision integers are modelled as mathematical `nat`s. `BigUint::pow` is modelled as `Pow` and `to_u32` as `ToU32`. Their internal algorithms and their running time and memory are not modelled.
- Determinism of repeated evaluations is not stated as a lemma. Every Dafny function and this method are deterministic by construction.
