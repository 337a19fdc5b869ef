/** The per-sample signal chain of `DolbyProcessor.process`, on values: block constants, the
    sidepath (fixed high-pass, envelope follower, control signal, dynamic high-pass, soft clip),
    the encode/decode mix and the output clamp. */
module Sidepath {
  import opened JsMath
  import opened OnePole
  import opened Params

  const Bypass: string := "bypass"
  const Encode: string := "encode"

  /** Cutoff of the fixed sidepath high-pass, in Hz. */
  const FixedCutHz: real := 500.0
  /** The range the dynamic high-pass cutoff sweeps, in Hz. */
  const MinCut: real := 1000.0
  const MaxCut: real := 8000.0
  /** The mix calibration constant 15/18. */
  const MixScale: real := 15.0 / 18.0
  /** The 1e-12 that keeps the threshold normalisation away from a zero divisor. */
  const Eps: real := 0.000000000001
  /** How sharply the control signal falls with overshoot. */
  const CtrlSlope: real := 4.0

  /** `dbToLin`: a level in decibels as a linear amplitude, `10^(db/20)`. */
  function DbToLin(m: MathLib, db: real): (lin: real)
    requires Sound(m)
    ensures 0.0 < lin
  {
    m.pow(10.0, db / 20.0)
  }

  /** `softClip`: the hyperbolic tangent, a saturator that keeps the sidepath inside (-1,1). */
  function SoftClip(m: MathLib, x: real): (r: real)
    requires Sound(m)
    ensures -1.0 < r < 1.0
  {
    m.tanh(x)
  }

  /** The attack time in seconds, with the attack time floored at 0.1 ms. */
  function AttackSeconds(attackMs: real): (t: real)
    ensures 0.0001 <= t && attackMs / 1000.0 <= t
    ensures t == 0.0001 || t == attackMs / 1000.0
  {
    Max(0.1, attackMs) / 1000.0
  }

  /** The release time in seconds, with the release time floored at 1 ms. */
  function ReleaseSeconds(releaseMs: real): (t: real)
    ensures 0.001 <= t && releaseMs / 1000.0 <= t
    ensures t == 0.001 || t == releaseMs / 1000.0
  {
    Max(1.0, releaseMs) / 1000.0
  }

  /** The per-sample smoothing coefficient `exp(-1/(sampleRate*seconds))` of a time constant. */
  function SmoothingCoeff(m: MathLib, sampleRate: real, seconds: real): (c: real)
    requires Sound(m) && 0.0 < sampleRate && 0.0 < seconds
    ensures 0.0 < c < 1.0
  {
    assert 0.0 < sampleRate * seconds;
    m.exp(-1.0 / (sampleRate * seconds))
  }

  /** The one-pole high-pass coefficient `rc/(rc+dt)` for a cutoff, with `rc = 1/(2*pi*cutHz)`. */
  function HpfCoeff(m: MathLib, cutHz: real, dt: real): (a: real)
    requires Sound(m) && 0.0 < cutHz && 0.0 < dt
    ensures 0.0 < a < 1.0
  {
    assert 0.0 < 2.0 * m.pi * cutHz;
    var rc := 1.0 / (2.0 * m.pi * cutHz);
    rc / (rc + dt)
  }

  /** A higher cutoff gives a smaller coefficient (so a larger coefficient means a lower cutoff). */
  lemma HpfCoeffFallsWithCutoff(m: MathLib, lo: real, hi: real, dt: real)
    requires Sound(m) && 0.0 < lo <= hi && 0.0 < dt
    ensures HpfCoeff(m, hi, dt) <= HpfCoeff(m, lo, dt)
  {
    var wLo, wHi := 2.0 * m.pi * lo, 2.0 * m.pi * hi;
    assert 0.0 < wLo <= wHi by {
      ScaleMonotone(lo, hi, 2.0 * m.pi);
    }
    ReciprocalFalls(wLo, wHi);
    CoeffGrowsWithTimeConstant(1.0 / wHi, 1.0 / wLo, dt);
  }

  /** A larger positive number has a smaller reciprocal. */
  lemma ReciprocalFalls(p: real, q: real)
    requires 0.0 < p <= q
    ensures 0.0 < 1.0 / q <= 1.0 / p
  {
    DivMonotone(1.0, q, 1.0, p);
  }

  /** `rc/(rc+dt)` grows with the time constant `rc`. */
  lemma CoeffGrowsWithTimeConstant(r1: real, r2: real, dt: real)
    requires 0.0 < r1 <= r2 && 0.0 < dt
    ensures r1 / (r1 + dt) <= r2 / (r2 + dt)
  {
    ScaleMonotone(r1, r2, dt);
    assert r1 * (r2 + dt) == r1 * r2 + r1 * dt;
    assert r2 * (r1 + dt) == r1 * r2 + r2 * dt;
    DivMonotone(r1, r1 + dt, r2, r2 + dt);
  }

  /** `p/q <= r/s` for positive divisors when `p*s <= r*q`. */
  lemma DivMonotone(p: real, q: real, r: real, s: real)
    requires 0.0 < q && 0.0 < s && p * s <= r * q
    ensures p / q <= r / s
  {
    var u, v := p / q, r / s;
    assert u * q == p && v * s == r;
    assert (u * s) * q <= (v * s) * q;
  }

  /** The constants of one block, formed from the parameters and the sample rate. */
  datatype Block = Block(
    math: MathLib,
    mode: string,
    emphasis: real,
    k: real,
    atkCoeff: real,
    relCoeff: real,
    thr: real,
    aFixed: real,
    dt: real)
  {
    /** What the per-sample chain relies on: sound math, smoothing and fixed-filter
        coefficients in (0,1), a positive linear threshold and a positive sample period. */
    ghost predicate Valid() {
      && Sound(math)
      && 0.0 < atkCoeff < 1.0
      && 0.0 < relCoeff < 1.0
      && 0.0 < thr
      && 0.0 < aFixed < 1.0
      && 0.0 < dt
    }
  }

  /** The coefficient setup at the top of `process`: attack and release times are floored before
      they are turned into coefficients, the threshold is made linear, and `k = (15/18)*amount`. */
  function Setup(m: MathLib, p: Params, sampleRate: real): (b: Block)
    requires Sound(m) && 0.0 < sampleRate
    ensures b.Valid()
    ensures b.math == m && b.mode == p.mode && b.emphasis == p.emphasis
    ensures b.k == MixScale * p.amount
    ensures b.atkCoeff == SmoothingCoeff(m, sampleRate, AttackSeconds(p.attackMs))
    ensures b.relCoeff == SmoothingCoeff(m, sampleRate, ReleaseSeconds(p.releaseMs))
    ensures b.thr == DbToLin(m, p.thresholdDb)
    ensures b.dt == 1.0 / sampleRate && b.aFixed == HpfCoeff(m, FixedCutHz, b.dt)
  {
    var dt := 1.0 / sampleRate;
    Block(m, p.mode, p.emphasis, MixScale * p.amount,
          SmoothingCoeff(m, sampleRate, AttackSeconds(p.attackMs)),
          SmoothingCoeff(m, sampleRate, ReleaseSeconds(p.releaseMs)),
          DbToLin(m, p.thresholdDb),
          HpfCoeff(m, FixedCutHz, dt),
          dt)
  }

  /** The asymmetric envelope follower: a rising target is approached with the attack
      coefficient, anything else with the release coefficient. The step closes the fraction
      `1 - coefficient` of the gap, so the new level lies strictly between the old level and
      the target unless the two already agree. */
  function EnvelopeStep(env: real, target: real, atkCoeff: real, relCoeff: real): (e: real)
    requires 0.0 < atkCoeff < 1.0 && 0.0 < relCoeff < 1.0
    ensures e - env == (1.0 - (if target > env then atkCoeff else relCoeff)) * (target - env)
    ensures Min(env, target) <= e <= Max(env, target)
    ensures env != target ==> e != env && e != target
  {
    var c := if target > env then atkCoeff else relCoeff;
    var e := c * env + (1.0 - c) * target;
    Smoothing(env, target, c);
    assert env != target ==> e != env && e != target;
    e
  }

  /** Smoothing with a coefficient in (0,1) closes the fraction `1 - c` of the gap to the target,
      so the smoothed level lies between the old level and the target. */
  lemma Smoothing(env: real, target: real, c: real)
    requires 0.0 < c < 1.0
    ensures c * env + (1.0 - c) * target - env == (1.0 - c) * (target - env)
    ensures target > env ==> env < c * env + (1.0 - c) * target < target
    ensures target < env ==> target < c * env + (1.0 - c) * target < env
    ensures target == env ==> c * env + (1.0 - c) * target == env
    ensures Min(env, target) <= c * env + (1.0 - c) * target <= Max(env, target)
  {
    var e, gap := c * env + (1.0 - c) * target, target - env;
    assert (1.0 - c) * gap == (1.0 - c) * target - (1.0 - c) * env;
    assert (1.0 - c) * env == env - c * env;
    assert e - env == (1.0 - c) * gap;
    PartOfGap(1.0 - c, gap);
    if target > env {
      assert env < e < target;
      assert Min(env, target) == env && Max(env, target) == target;
    } else if target < env {
      assert target < e < env;
      assert Min(env, target) == target && Max(env, target) == env;
    } else {
      assert e == env;
    }
  }

  /** A fraction in (0,1) of a gap is strictly inside the gap, unless the gap is empty. */
  lemma PartOfGap(f: real, gap: real)
    requires 0.0 < f < 1.0
    ensures 0.0 < gap ==> 0.0 < f * gap < gap
    ensures gap < 0.0 ==> gap < f * gap < 0.0
    ensures gap == 0.0 ==> f * gap == 0.0
  {
    if 0.0 < gap {
      assert gap - f * gap == (1.0 - f) * gap;
      assert 0.0 < (1.0 - f) * gap;
    } else if gap < 0.0 {
      assert f * gap - gap == (1.0 - f) * (-gap);
      assert 0.0 < (1.0 - f) * (-gap);
      assert 0.0 < f * (-gap);
    }
  }

  /** The normalised excess of the envelope over the threshold, never negative, and zero
      exactly when the envelope is at or below the threshold. */
  function Over(env: real, thr: real): (o: real)
    requires 0.0 < thr
    ensures 0.0 <= o
    ensures o == 0.0 <==> env <= thr
  {
    var d := thr + Eps;
    assert env > thr ==> (env - thr) / d > 0.0;
    assert env <= thr ==> (env - thr) / d <= 0.0;
    Max(0.0, (env - thr) / d)
  }

  /** The control signal `1/(1 + 4*over)`: in (0,1], and equal to 1 exactly when the envelope
      is at or below the threshold. */
  function Control(env: real, thr: real): (ctrl: real)
    requires 0.0 < thr
    ensures 0.0 < ctrl <= 1.0
    ensures ctrl == 1.0 <==> env <= thr
  {
    var o := Over(env, thr);
    assert o > 0.0 ==> 1.0 / (1.0 + CtrlSlope * o) < 1.0;
    1.0 / (1.0 + CtrlSlope * o)
  }

  /** A louder envelope never raises the control signal. */
  lemma ControlFallsWithLevel(quiet: real, loud: real, thr: real)
    requires 0.0 < thr && quiet <= loud
    ensures Control(loud, thr) <= Control(quiet, thr)
  {
    var d := thr + Eps;
    assert (quiet - thr) / d <= (loud - thr) / d by {
      DivMonotone(quiet - thr, d, loud - thr, d);
    }
    var oq, ol := Over(quiet, thr), Over(loud, thr);
    assert oq <= ol;
    DivMonotone(1.0, 1.0 + CtrlSlope * ol, 1.0, 1.0 + CtrlSlope * oq);
  }

  /** The dynamic cutoff: `ctrl*emphasis` clamped to [0,1] sweeps the cutoff from 1000 Hz to
      8000 Hz, so whatever the emphasis the cutoff stays within [1000, 8000]. */
  function Cutoff(ctrl: real, emphasis: real): (cut: real)
    ensures MinCut <= cut <= MaxCut
    ensures ctrl * emphasis <= 0.0 ==> cut == MinCut
    ensures 1.0 <= ctrl * emphasis ==> cut == MaxCut
  {
    MinCut + (MaxCut - MinCut) * Min(1.0, Max(0.0, ctrl * emphasis))
  }

  /** With a non-negative emphasis, a louder envelope never raises the dynamic cutoff. */
  lemma CutoffFallsWithLevel(quiet: real, loud: real, thr: real, emphasis: real)
    requires 0.0 < thr && quiet <= loud && 0.0 <= emphasis
    ensures Cutoff(Control(loud, thr), emphasis) <= Cutoff(Control(quiet, thr), emphasis)
  {
    ControlFallsWithLevel(quiet, loud, thr);
    CutoffMonotone(Control(loud, thr), Control(quiet, thr), emphasis);
  }

  /** With a non-negative emphasis, a smaller control signal never gives a higher cutoff. */
  lemma CutoffMonotone(lo: real, hi: real, emphasis: real)
    requires lo <= hi && 0.0 <= emphasis
    ensures Cutoff(lo, emphasis) <= Cutoff(hi, emphasis)
  {
    var pl, ph := lo * emphasis, hi * emphasis;
    ScaleMonotone(lo, hi, emphasis);
    UnitClampMonotone(pl, ph);
    ScaleMonotone(Min(1.0, Max(0.0, pl)), Min(1.0, Max(0.0, ph)), MaxCut - MinCut);
  }

  /** Clamping to [0,1] keeps an ordering. */
  lemma UnitClampMonotone(p: real, q: real)
    requires p <= q
    ensures Min(1.0, Max(0.0, p)) <= Min(1.0, Max(0.0, q))
  {
  }

  /** Multiplying by a non-negative factor keeps an ordering. */
  lemma ScaleMonotone(lo: real, hi: real, f: real)
    requires lo <= hi && 0.0 <= f
    ensures lo * f <= hi * f
  {
    assert hi * f - lo * f == (hi - lo) * f;
  }

  /** The coefficient of the dynamic high-pass for an envelope level: since the cutoff stays in
      [1000, 8000] Hz, the coefficient lies between those of the two end cutoffs. */
  function DynamicCoeff(b: Block, env: real): (a: real)
    requires b.Valid()
    ensures HpfCoeff(b.math, MaxCut, b.dt) <= a <= HpfCoeff(b.math, MinCut, b.dt)
  {
    var cut := Cutoff(Control(env, b.thr), b.emphasis);
    HpfCoeffFallsWithCutoff(b.math, cut, MaxCut, b.dt);
    HpfCoeffFallsWithCutoff(b.math, MinCut, cut, b.dt);
    HpfCoeff(b.math, cut, b.dt)
  }

  /** The state one channel carries from sample to sample: the two filters and the envelope. */
  datatype Channel = Channel(fixed: FilterState, dyn: FilterState, env: real)

  /** A channel as the processor's constructor leaves it. */
  const FreshChannel: Channel := Channel(Rest, Rest, 0.0)

  /** The sidepath for one sample and the channel state it leaves behind. */
  datatype SideOut = SideOut(next: Channel, side: real)

  /** The sidepath of one sample `x`: fixed high-pass, envelope follower fed with the rectified
      fixed-filter output, control signal, dynamic cutoff, dynamic high-pass, soft clip. */
  function Side(b: Block, st: Channel, x: real): (r: SideOut)
    requires b.Valid()
    ensures -1.0 < r.side < 1.0
    ensures r.next.fixed.x1 == x && r.next.dyn.x1 == r.next.fixed.y1
    ensures Min(st.env, Abs(r.next.fixed.y1)) <= r.next.env <= Max(st.env, Abs(r.next.fixed.y1))
    ensures r.next.dyn == OnePole.Step(st.dyn, r.next.fixed.y1, DynamicCoeff(b, r.next.env))
  {
    var fixed := OnePole.Step(st.fixed, x, b.aFixed);
    var env := EnvelopeStep(st.env, Abs(fixed.y1), b.atkCoeff, b.relCoeff);
    var dyn := OnePole.Step(st.dyn, fixed.y1, DynamicCoeff(b, env));
    SideOut(Channel(fixed, dyn, env), SoftClip(b.math, dyn.y1))
  }

  /** The mix before clamping: encode adds the scaled sidepath to the dry sample, every other
      mode takes it away. */
  function Mix(mode: string, x: real, k: real, side: real): (y: real)
    ensures mode == Encode ==> y - x == k * side
    ensures mode != Encode ==> x - y == k * side
  {
    if mode == Encode then x + k * side else x - k * side
  }

  /** Encode and decode move a dry sample by opposite amounts: their mixes are mirror images
      about the dry sample. */
  lemma EncodeMirrorsDecode(mode: string, x: real, k: real, side: real)
    requires mode != Encode
    ensures Mix(Encode, x, k, side) - x == x - Mix(mode, x, k, side)
    ensures Mix(Encode, x, k, side) + Mix(mode, x, k, side) == 2.0 * x
  {
  }

  /** The output clamp to [-1,1]: values inside are kept, values outside go to the nearer bound. */
  function Clamp(y: real): (r: real)
    ensures -1.0 <= r <= 1.0
    ensures -1.0 <= y <= 1.0 ==> r == y
    ensures 1.0 < y ==> r == 1.0
    ensures y < -1.0 ==> r == -1.0
  {
    Max(-1.0, Min(1.0, y))
  }

  /** An output sample and the channel state after it. */
  datatype Sample = Sample(next: Channel, y: real)

  /** One sample of `process`. Bypass copies the sample and leaves the channel state alone; every
      other mode advances the state through the sidepath and writes a sample in [-1,1] that, for
      an input in [-1,1], differs from it by at most |k|. */
  function Step(b: Block, st: Channel, x: real): (r: Sample)
    requires b.Valid()
    ensures b.mode == Bypass ==> r == Sample(st, x)
    ensures b.mode != Bypass ==> r.next == Side(b, st, x).next && -1.0 <= r.y <= 1.0
    ensures b.mode != Bypass && -1.0 <= x <= 1.0 ==> Abs(r.y - x) <= Abs(b.k)
  {
    if b.mode == Bypass then
      Sample(st, x)
    else
      var sp := Side(b, st, x);
      var y := Mix(b.mode, x, b.k, sp.side);
      MixStaysNear(b.mode, x, b.k, sp.side);
      Sample(sp.next, Clamp(y))
  }

  /** For an input in [-1,1], clamping the mix moves it at most |k| away from the input. */
  lemma MixStaysNear(mode: string, x: real, k: real, side: real)
    requires -1.0 < side < 1.0
    ensures -1.0 <= x <= 1.0 ==> Abs(Clamp(Mix(mode, x, k, side)) - x) <= Abs(k)
  {
    var d := Mix(mode, x, k, side) - x;
    assert d == k * side || d == -(k * side);
    ScaledSideBound(k, side);
  }

  /** `|k*side| <= |k|` when `|side| < 1`. */
  lemma ScaledSideBound(k: real, side: real)
    requires -1.0 < side < 1.0
    ensures Abs(k * side) <= Abs(k)
  {
    var ak, aside := Abs(k), Abs(side);
    assert Abs(k * side) == ak * aside;
    assert 0.0 <= ak * (1.0 - aside);
  }

  /** What processing a run of samples leaves: the channel state and the written samples. */
  datatype RunOut = RunOut(state: Channel, out: seq<real>)

  /** The inner sample loop of `process` over one channel: the samples in order, each output
      written as it is computed. In bypass the samples pass through and the state is frozen. */
  function Run(b: Block, st: Channel, xs: seq<real>): (r: RunOut)
    requires b.Valid()
    ensures |r.out| == |xs|
    ensures b.mode == Bypass ==> r.state == st && r.out == xs
    decreases |xs|
  {
    if xs == [] then
      RunOut(st, [])
    else
      var prev := Run(b, st, xs[..|xs| - 1]);
      var s := Step(b, prev.state, xs[|xs| - 1]);
      RunOut(s.next, prev.out + [s.y])
  }

  /** One more sample extends a run by one step: the state advances by `Step` and its output
      is appended. */
  lemma RunSnoc(b: Block, st: Channel, xs: seq<real>, i: nat)
    requires b.Valid() && i < |xs|
    ensures Run(b, st, xs[..i + 1]) ==
            RunOut(Step(b, Run(b, st, xs[..i]).state, xs[i]).next,
                   Run(b, st, xs[..i]).out + [Step(b, Run(b, st, xs[..i]).state, xs[i]).y])
  {
    assert xs[..i + 1][..i] == xs[..i];
  }

  /** In every mode but bypass, every sample a channel run writes lies in [-1,1]. */
  lemma {:induction false} RunOutputsInRange(b: Block, st: Channel, xs: seq<real>)
    requires b.Valid() && b.mode != Bypass
    ensures forall i :: 0 <= i < |xs| ==> -1.0 <= Run(b, st, xs).out[i] <= 1.0
    decreases |xs|
  {
    if xs != [] {
      RunOutputsInRange(b, st, xs[..|xs| - 1]);
    }
  }

  /** The envelope starts at 0 and is only ever fed magnitudes, so it never goes negative. */
  lemma {:induction false} RunKeepsEnvelopeNonNegative(b: Block, st: Channel, xs: seq<real>)
    requires b.Valid() && 0.0 <= st.env
    ensures 0.0 <= Run(b, st, xs).state.env
    decreases |xs|
  {
    if xs != [] {
      RunKeepsEnvelopeNonNegative(b, st, xs[..|xs| - 1]);
    }
  }

  /** Processing a buffer in two blocks with the same constants gives the same samples and the
      same final state as processing it in one, so block-wise streaming and a whole-buffer
      render agree. */
  lemma {:induction false} RunSplit(b: Block, st: Channel, xs: seq<real>, ys: seq<real>)
    requires b.Valid()
    ensures Run(b, st, xs + ys) ==
            RunOut(Run(b, Run(b, st, xs).state, ys).state,
                   Run(b, st, xs).out + Run(b, Run(b, st, xs).state, ys).out)
    decreases |ys|
  {
    if ys == [] {
      assert xs + ys == xs;
    } else {
      var init := ys[..|ys| - 1];
      assert (xs + ys)[..|xs + ys| - 1] == xs + init;
      assert (xs + ys)[|xs + ys| - 1] == ys[|ys| - 1];
      RunSplit(b, st, xs, init);
    }
  }

  /** Any mode other than `"bypass"` and `"encode"` processes a channel exactly as `"decode"`. */
  lemma {:induction false} UnknownModeIsDecode(b: Block, st: Channel, xs: seq<real>)
    requires b.Valid() && b.mode != Bypass && b.mode != Encode
    ensures Run(b, st, xs) == Run(b.(mode := "decode"), st, xs)
    decreases |xs|
  {
    if xs != [] {
      var init := xs[..|xs| - 1];
      UnknownModeIsDecode(b, st, init);
      var prev := Run(b, st, init);
      StepOfUnknownMode(b, prev.state, xs[|xs| - 1]);
    }
  }

  /** One sample in a mode other than bypass and encode is the decode sample. */
  lemma StepOfUnknownMode(b: Block, st: Channel, x: real)
    requires b.Valid() && b.mode != Bypass && b.mode != Encode
    ensures Step(b, st, x) == Step(b.(mode := "decode"), st, x)
  {
    var d := b.(mode := "decode");
    assert Side(b, st, x) == Side(d, st, x);
    assert Mix(b.mode, x, b.k, Side(b, st, x).side) == Mix(d.mode, x, d.k, Side(d, st, x).side);
  }
}
