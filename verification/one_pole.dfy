/** The one-pole high-pass filter `OnePoleHPF` of dolby-worklet.js. */
module OnePole {
  import opened JsMath

  /** The filter's memory: the previous input `x1` and the previous output `y1`. */
  datatype FilterState = FilterState(x1: real, y1: real)

  /** A newly constructed filter remembers zeros. */
  const Rest: FilterState := FilterState(0.0, 0.0)

  /** One sample `x` through the filter `y = a*(y1 + x - x1)`; the new state remembers `x` and `y`.
      The output follows the change of the input, not its level: an input equal to the remembered
      one only scales the previous output by `a`, and from rest the first output is `a*x`. */
  function Step(f: FilterState, x: real, a: real): (g: FilterState)
    ensures g.x1 == x
    ensures x == f.x1 ==> g.y1 == a * f.y1
    ensures f == Rest ==> g.y1 == a * x
  {
    FilterState(x, a * (f.y1 + x - f.x1))
  }

  /** The filter run over a whole sequence of samples, first sample first. */
  function Run(f: FilterState, xs: seq<real>, a: real): (g: FilterState)
    ensures xs != [] ==> g.x1 == xs[|xs| - 1]
    decreases |xs|
  {
    if xs == [] then f else Run(Step(f, xs[0], a), xs[1..], a)
  }

  /** `a` raised to the `n`th power. */
  function Pow(a: real, n: nat): (p: real)
    ensures 0.0 < a < 1.0 ==> 0.0 < p <= 1.0
    ensures 0.0 < a < 1.0 && 0 < n ==> p < 1.0
  {
    if n == 0 then 1.0 else a * Pow(a, n - 1)
  }

  /** A constant input equal to the remembered one is rejected: each further sample multiplies
      the output by `a`, so after `n` samples the output is `a^n` times the old output. */
  lemma {:induction false} ConstantInputDecays(f: FilterState, n: nat, a: real)
    ensures Run(f, seq(n, _ => f.x1), a) == FilterState(f.x1, Pow(a, n) * f.y1)
    decreases n
  {
    var c := f.x1;
    if n > 0 {
      var g := Step(f, c, a);
      var cs := seq(n, _ => c);
      assert cs[1..] == seq(n - 1, _ => c);
      assert Run(f, cs, a) == Run(g, cs[1..], a);
      ConstantInputDecays(g, n - 1, a);
      calc {
        Pow(a, n - 1) * (a * f.y1);
        (a * Pow(a, n - 1)) * f.y1;
      }
    }
  }

  /** With a coefficient in (0,1), a held input never makes the output grow. */
  lemma ConstantInputNeverGrows(f: FilterState, n: nat, a: real)
    requires 0.0 < a < 1.0
    ensures Abs(Run(f, seq(n, _ => f.x1), a).y1) <= Abs(f.y1)
  {
    ConstantInputDecays(f, n, a);
    ScaleShrinks(Pow(a, n), f.y1);
  }

  /** Scaling by a factor in (0,1] does not increase a magnitude. */
  lemma ScaleShrinks(p: real, y: real)
    requires 0.0 < p <= 1.0
    ensures Abs(p * y) <= Abs(y)
  {
    if y >= 0.0 {
      assert p * y <= 1.0 * y;
    } else {
      assert p * (-y) <= 1.0 * (-y);
    }
  }

  /** The filter object: `x1` and `y1` are updated in place by every call of `Process`. */
  class OnePoleHPF {
    var x1: real
    var y1: real

    constructor ()
      ensures State() == Rest
    {
      x1 := 0.0;
      y1 := 0.0;
    }

    /** The filter's memory as a value. */
    function State(): FilterState
      reads this
    {
      FilterState(x1, y1)
    }

    /** Filters one sample with coefficient `a`; returns the output and remembers input and output. */
    method Process(x: real, a: real) returns (y: real)
      modifies this
      ensures State() == Step(old(State()), x, a)
      ensures y == y1
    {
      y := a * (y1 + x - x1);
      x1 := x;
      y1 := y;
    }
  }
}
