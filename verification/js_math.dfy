/** The parts of JavaScript's `Math` object that the worklet uses.

    `Math.exp`, `Math.pow`, `Math.tanh` and `Math.PI` are not defined here: they are a value of
    type `MathLib` supplied by the host, and `Sound` states the only facts about them that the
    processor relies on. Samples and coefficients are mathematical reals. */
module JsMath {

  /** The host's transcendental functions, left abstract. */
  datatype MathLib = MathLib(exp: real -> real, pow: (real, real) -> real, tanh: real -> real, pi: real)

  /** Range facts: `exp` of a negative number lies in (0,1), powers of ten are positive,
      `tanh` lies in (-1,1), and pi is positive. */
  ghost predicate Sound(m: MathLib) {
    && (forall t :: t < 0.0 ==> 0.0 < m.exp(t) < 1.0)
    && (forall e :: 0.0 < m.pow(10.0, e))
    && (forall t :: -1.0 < m.tanh(t) < 1.0)
    && 0.0 < m.pi
  }

  /** `Math.max` on two numbers. */
  function Max(a: real, b: real): real {
    if a >= b then a else b
  }

  /** `Math.min` on two numbers. */
  function Min(a: real, b: real): real {
    if a <= b then a else b
  }

  /** `Math.abs`. */
  function Abs(a: real): real {
    if a < 0.0 then -a else a
  }
}
