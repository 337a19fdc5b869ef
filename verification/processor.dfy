/** The audio-worklet processor `DolbyProcessor`: per-channel filter objects and envelope levels
    kept between calls, the parameter record updated by port messages, and `process`, which
    overwrites the output buffers in place.

    The host's input buffers are only ever read, so they are passed as sample sequences; the
    output buffers are arrays, written in place. */
module Processor {
  import opened JsMath
  import OnePole
  import opened Params
  import opened Sidepath

  /** How a call of `process` ends: it returns `true` (keep the node alive), or the lookup of
      a filter object for a channel beyond the second throws a `TypeError`. */
  datatype Outcome = KeepAlive | Threw

  /** The channels of the first input, or none when no input is connected. A block returns early
      exactly when this is empty: when the input is missing or has no channels. */
  function FirstInput(inputs: seq<seq<seq<real>>>): (input: seq<seq<real>>)
    ensures input == [] <==> |inputs| == 0 || |inputs[0]| == 0
    ensures input != [] ==> input == inputs[0]
  {
    if |inputs| == 0 then [] else inputs[0]
  }

  /** The number of channels a block processes: those both the input and the output have. */
  function NumChannels(input: seq<seq<real>>, output: seq<array<real>>): (n: nat)
    ensures n <= |input| && n <= |output|
    ensures n == |input| || n == |output|
  {
    if |output| < |input| then |output| else |input|
  }

  /** What the audio host guarantees of the buffers it hands to `process`: every processed
      channel holds one render quantum of samples, and the output channels are distinct from
      each other and from the processor's own state. */
  ghost predicate HostBuffers(input: seq<seq<real>>, output: seq<array<real>>, env: array<real>) {
    && (forall c :: 0 <= c < |output| ==> output[c] != env)
    && (forall c, d :: 0 <= c < |output| && 0 <= d < |output| && c != d ==> output[c] != output[d])
    && (input != [] ==>
          forall c :: 0 <= c < |input| && c < |output| ==>
            |input[c]| == |input[0]| && output[c].Length == |input[0]|)
  }

  /** The samples held by a list of channel buffers. */
  ghost function Contents(chs: seq<array<real>>): (r: seq<seq<real>>)
    reads chs
    ensures |r| == |chs| && forall c :: 0 <= c < |chs| ==> r[c] == chs[c][..]
  {
    seq(|chs|, c requires 0 <= c < |chs| reads chs => chs[c][..])
  }

  /** What the two stateful channels of a block compute from their states `before`: the run of
      each channel's input samples, or nothing for a channel the input does not have. */
  ghost function Runs(b: Block, before: seq<Channel>, input: seq<seq<real>>): (runs: seq<RunOut>)
    requires b.Valid() && |before| == 2
    ensures |runs| == 2
    ensures forall c :: 0 <= c < 2 && c < |input| ==> runs[c] == Run(b, before[c], input[c])
  {
    seq(2, c requires 0 <= c < 2 =>
      if c < |input| then Run(b, before[c], input[c]) else RunOut(before[c], []))
  }

  /** Copies one channel unchanged: the bypass loop for a channel that has no state of its own. */
  method Passthrough(xs: seq<real>, outCh: array<real>)
    requires |xs| == outCh.Length
    modifies outCh
    ensures outCh[..] == xs
  {
    var i := 0;
    while i < |xs|
      invariant 0 <= i <= |xs|
      invariant outCh[..i] == xs[..i]
    {
      outCh[i] := xs[i];
      i := i + 1;
    }
  }

  /** The body of the sample loop in a mode other than bypass: the sidepath through the two
      filter objects and the envelope level, then the mix and the clamp. */
  method SampleInPlace(fixed: OnePole.OnePoleHPF, dyn: OnePole.OnePoleHPF, e: real, x: real, b: Block)
    returns (e': real, y: real)
    requires b.Valid() && b.mode != Bypass && fixed != dyn
    modifies fixed, dyn
    ensures Step(b, Channel(old(fixed.State()), old(dyn.State()), e), x)
            == Sample(Channel(fixed.State(), dyn.State(), e'), y)
  {
    var side := fixed.Process(x, b.aFixed);
    e' := EnvelopeStep(e, Abs(side), b.atkCoeff, b.relCoeff);
    var ctrl := Control(e', b.thr);
    var cut := Cutoff(ctrl, b.emphasis);
    var aDyn := HpfCoeff(b.math, cut, b.dt);
    side := dyn.Process(side, aDyn);
    side := SoftClip(b.math, side);
    y := Clamp(Mix(b.mode, x, b.k, side));
  }

  /** The sample loop: every sample of `xs` through the two filter objects and the envelope
      level `e`, each output written in place into `outCh`; returns the final envelope level. */
  method RunSamples(fixed: OnePole.OnePoleHPF, dyn: OnePole.OnePoleHPF, e: real,
                    xs: seq<real>, outCh: array<real>, b: Block) returns (e': real)
    requires b.Valid() && fixed != dyn && |xs| == outCh.Length
    modifies fixed, dyn, outCh
    ensures Channel(fixed.State(), dyn.State(), e')
            == Run(b, Channel(old(fixed.State()), old(dyn.State()), e), xs).state
    ensures outCh[..] == Run(b, Channel(old(fixed.State()), old(dyn.State()), e), xs).out
  {
    ghost var start := Channel(fixed.State(), dyn.State(), e);
    e' := e;
    var i := 0;
    while i < |xs|
      invariant 0 <= i <= |xs|
      invariant Channel(fixed.State(), dyn.State(), e') == Run(b, start, xs[..i]).state
      invariant outCh[..i] == Run(b, start, xs[..i]).out
    {
      var x := xs[i];
      ghost var prev := Run(b, start, xs[..i]);
      ghost var step := Step(b, prev.state, x);
      RunSnoc(b, start, xs, i);
      if b.mode == Bypass {
        outCh[i] := x;
      } else {
        var y;
        e', y := SampleInPlace(fixed, dyn, e', x, b);
        outCh[i] := y;
      }
      assert Channel(fixed.State(), dyn.State(), e') == step.next && outCh[i] == step.y;
      assert outCh[..i + 1] == outCh[..i] + [outCh[i]];
      i := i + 1;
    }
    assert xs[..i] == xs;
  }

  class DolbyProcessor {
    /** Per-channel fixed and dynamic sidepath filters and envelope levels, for two channels. */
    const hpfFixed: array<OnePole.OnePoleHPF>
    const hpfDyn: array<OnePole.OnePoleHPF>
    const env: array<real>
    /** The parameters the next block will use. */
    var params: Params

    /** Two channels of state, each with filter objects of its own. */
    ghost predicate Valid()
      reads hpfFixed, hpfDyn
    {
      && hpfFixed.Length == 2 && hpfDyn.Length == 2 && env.Length == 2
      && hpfFixed[0] != hpfFixed[1] && hpfDyn[0] != hpfDyn[1]
      && hpfFixed[0] != hpfDyn[0] && hpfFixed[0] != hpfDyn[1]
      && hpfFixed[1] != hpfDyn[0] && hpfFixed[1] != hpfDyn[1]
    }

    /** The state channel `c` carries between samples and between blocks. */
    ghost function ChannelState(c: nat): Channel
      requires Valid() && c < 2
      reads hpfFixed, hpfDyn, env, hpfFixed[c], hpfDyn[c]
    {
      Channel(hpfFixed[c].State(), hpfDyn[c].State(), env[c])
    }

    /** The state of both channels. */
    ghost function Channels(): (s: seq<Channel>)
      requires Valid()
      reads hpfFixed, hpfDyn, env, hpfFixed[0], hpfFixed[1], hpfDyn[0], hpfDyn[1]
      ensures |s| == 2
    {
      [ChannelState(0), ChannelState(1)]
    }

    constructor ()
      ensures Valid()
      ensures Channels() == [FreshChannel, FreshChannel]
      ensures params == Defaults
      ensures fresh(hpfFixed) && fresh(hpfDyn) && fresh(env)
      ensures fresh(hpfFixed[0]) && fresh(hpfFixed[1]) && fresh(hpfDyn[0]) && fresh(hpfDyn[1])
    {
      var f0 := new OnePole.OnePoleHPF();
      var f1 := new OnePole.OnePoleHPF();
      var d0 := new OnePole.OnePoleHPF();
      var d1 := new OnePole.OnePoleHPF();
      hpfFixed := new OnePole.OnePoleHPF[][f0, f1];
      hpfDyn := new OnePole.OnePoleHPF[][d0, d1];
      env := new real[][0.0, 0.0];
      params := Defaults;
    }

    /** The port's message handler: a `"params"` message is merged into the parameters,
        anything else is ignored; no channel state changes. */
    method OnMessage(data: Option<Message>)
      modifies this`params
      ensures params == Merge(old(params), data)
    {
      params := Merge(params, data);
    }

    /** One block: `inputs[0]` is processed into `outputs[0]` with the parameters as they stand.
        A missing or empty input returns at once, before anything is computed or written.
        Otherwise the block constants come from the parameters and the sample rate, and the
        channels both buffers have are processed in order (see `Done`); in a mode other than
        bypass a third channel with samples throws, after the first two are complete. */
    method Process(inputs: seq<seq<seq<real>>>, outputs: seq<seq<array<real>>>, math: MathLib, sampleRate: real)
      returns (r: Outcome)
      requires Valid() && Sound(math) && 0.0 < sampleRate
      requires |outputs| > 0
      requires HostBuffers(FirstInput(inputs), outputs[0], env)
      modifies env, hpfFixed[0], hpfFixed[1], hpfDyn[0], hpfDyn[1], outputs[0]
      ensures FirstInput(inputs) == [] ==>
        && r == KeepAlive
        && Channels() == old(Channels())
        && Contents(outputs[0]) == old(Contents(outputs[0]))
      ensures FirstInput(inputs) != [] ==>
        var input := FirstInput(inputs);
        var numCh := NumChannels(input, outputs[0]);
        var b := Setup(math, params, sampleRate);
        && r == (if b.mode != Bypass && 2 < numCh && 0 < |input[0]| then Threw else KeepAlive)
        && Done(b, old(Channels()), Runs(b, old(Channels()), input), input,
                old(Contents(outputs[0])), outputs[0], if r == Threw then 2 else numCh)
      ensures FirstInput(inputs) != [] && params.mode == Bypass ==>
        && r == KeepAlive
        && Channels() == old(Channels())
        && forall c :: 0 <= c < NumChannels(FirstInput(inputs), outputs[0]) ==>
             outputs[0][c][..] == FirstInput(inputs)[c]
      ensures FirstInput(inputs) != [] && params.mode != Bypass ==>
        forall c, i :: (0 <= c < NumChannels(FirstInput(inputs), outputs[0]) && c < 2
                        && 0 <= i < outputs[0][c].Length) ==> -1.0 <= outputs[0][c][i] <= 1.0
      ensures 0.0 <= old(env[0]) && 0.0 <= old(env[1]) ==> 0.0 <= env[0] && 0.0 <= env[1]
    {
      var input := FirstInput(inputs);
      if input == [] {
        return KeepAlive;
      }
      var b := Setup(math, params, sampleRate);
      ghost var before, outs := Channels(), Contents(outputs[0]);
      r := ProcessChannels(input, outputs[0], b);
      DoneFacts(b, before, Runs(b, before, input), input, outs, outputs[0],
                if r == Threw then 2 else NumChannels(input, outputs[0]));
    }

    /** What a block guarantees once its first `done` channels are processed: in bypass the state
        is frozen and every processed output is a copy of its input; in every other mode the
        outputs of channels 0 and 1 lie in [-1,1]; and non-negative envelopes stay non-negative. */
    lemma DoneFacts(b: Block, before: seq<Channel>, runs: seq<RunOut>, input: seq<seq<real>>,
                    outs: seq<seq<real>>, output: seq<array<real>>, done: nat)
      requires Valid() && b.Valid() && |before| == 2 && |outs| == |output|
      requires done <= |input| && done <= |output|
      requires runs == Runs(b, before, input)
      requires Done(b, before, runs, input, outs, output, done)
      ensures b.mode == Bypass ==>
        Channels() == before && forall c :: 0 <= c < done ==> output[c][..] == input[c]
      ensures b.mode != Bypass ==>
        forall c, i :: (0 <= c < done && c < 2 && 0 <= i < output[c].Length)
                       ==> -1.0 <= output[c][i] <= 1.0
      ensures 0.0 <= before[0].env && 0.0 <= before[1].env ==> 0.0 <= env[0] && 0.0 <= env[1]
    {
      ChannelFacts(b, before, input, 0);
      ChannelFacts(b, before, input, 1);
      if b.mode == Bypass {
        assert before == [before[0], before[1]];
      }
    }

    /** What the whole-channel lemmas give for channel `c` of a block. */
    lemma ChannelFacts(b: Block, before: seq<Channel>, input: seq<seq<real>>, c: nat)
      requires b.Valid() && |before| == 2 && c < 2
      ensures c < |input| && b.mode != Bypass ==>
        forall i :: 0 <= i < |input[c]| ==> -1.0 <= Run(b, before[c], input[c]).out[i] <= 1.0
      ensures c < |input| && 0.0 <= before[c].env ==> 0.0 <= Run(b, before[c], input[c]).state.env
    {
      if c < |input| {
        if b.mode != Bypass {
          RunOutputsInRange(b, before[c], input[c]);
        }
        if 0.0 <= before[c].env {
          RunKeepsEnvelopeNonNegative(b, before[c], input[c]);
        }
      }
    }

    /** The state and the output channels once the first `done` channels of a block have been
        processed, starting from the channel states `before` and output contents `outs`, where
        `runs` holds what the two stateful channels compute (`Runs`): each processed channel
        with state holds its run's final state and samples; a processed channel without state
        holds a copy of its input in bypass and is untouched otherwise; channels not yet
        processed, and their state, are untouched. */
    ghost predicate Done(b: Block, before: seq<Channel>, runs: seq<RunOut>, input: seq<seq<real>>,
                         outs: seq<seq<real>>, output: seq<array<real>>, done: nat)
      requires Valid() && |before| == 2 && |runs| == 2 && |outs| == |output| && done <= |input|
      reads hpfFixed, hpfDyn, env, hpfFixed[0], hpfFixed[1], hpfDyn[0], hpfDyn[1], output
    {
      && ChannelState(0) == (if 0 < done then runs[0].state else before[0])
      && ChannelState(1) == (if 1 < done then runs[1].state else before[1])
      && forall c :: 0 <= c < |output| ==>
           output[c][..] == if c < done && c < 2 then runs[c].out
                            else if c < done && b.mode == Bypass then input[c]
                            else outs[c]
    }

    /** The channel loop of one block. */
    method ProcessChannels(input: seq<seq<real>>, output: seq<array<real>>, b: Block) returns (r: Outcome)
      requires Valid() && b.Valid() && input != []
      requires HostBuffers(input, output, env)
      modifies env, hpfFixed[0], hpfFixed[1], hpfDyn[0], hpfDyn[1], output
      ensures r == (if b.mode != Bypass && 2 < NumChannels(input, output) && 0 < |input[0]| then Threw else KeepAlive)
      ensures Done(b, old(Channels()), Runs(b, old(Channels()), input), input, old(Contents(output)), output,
                   if r == Threw then 2 else NumChannels(input, output))
    {
      var numCh := NumChannels(input, output);
      ghost var before := Channels();
      ghost var runs := Runs(b, before, input);
      ghost var outs := Contents(output);
      var ch := 0;
      while ch < numCh
        invariant 0 <= ch <= numCh
        invariant 2 < ch ==> b.mode == Bypass || |input[0]| == 0
        invariant Done(b, before, runs, input, outs, output, ch)
      {
        if ch < 2 {
          StatefulPass(ch, input, output, b, before, runs, outs);
        } else if b.mode == Bypass {
          BypassPass(ch, input, output, b, before, runs, outs);
        } else if 0 < |input[0]| {
          return Threw;
        }
        ch := ch + 1;
      }
      return KeepAlive;
    }

    /** One pass of the channel loop for a channel with state of its own. */
    method StatefulPass(ch: nat, input: seq<seq<real>>, output: seq<array<real>>, b: Block,
                        ghost before: seq<Channel>, ghost runs: seq<RunOut>, ghost outs: seq<seq<real>>)
      requires Valid() && b.Valid() && HostBuffers(input, output, env)
      requires ch < |input| && ch < |output| && ch < 2
      requires |before| == 2 && |runs| == 2 && |outs| == |output|
      requires runs[ch] == Run(b, before[ch], input[ch])
      requires Done(b, before, runs, input, outs, output, ch)
      modifies env, hpfFixed[ch], hpfDyn[ch], output[ch]
      ensures Done(b, before, runs, input, outs, output, ch + 1)
    {
      ghost var rest := Contents(output);
      ProcessChannel(ch, input[ch], output[ch], b, runs[ch]);
      forall c | 0 <= c < |output|
        ensures output[c][..] == if c == ch then runs[ch].out else rest[c]
      {
        if c != ch {
          assert output[c][..] == rest[c];
        }
      }
    }

    /** One channel with state of its own: read its envelope level, run its samples through its
        filter objects into `outCh`, store the level back. The result is `r`, the run of the
        samples from the channel's state; the other channel is untouched. */
    method ProcessChannel(ch: nat, xs: seq<real>, outCh: array<real>, b: Block, ghost r: RunOut)
      requires Valid() && b.Valid() && ch < 2 && |xs| == outCh.Length && outCh != env
      requires r == Run(b, ChannelState(ch), xs)
      modifies env, hpfFixed[ch], hpfDyn[ch], outCh
      ensures ChannelState(ch) == r.state && outCh[..] == r.out
      ensures ChannelState(1 - ch) == old(ChannelState(1 - ch))
    {
      var e := env[ch];
      e := RunSamples(hpfFixed[ch], hpfDyn[ch], e, xs, outCh, b);
      env[ch] := e;
    }

    /** One pass of the channel loop in bypass for a channel without state: a copy. */
    method BypassPass(ch: nat, input: seq<seq<real>>, output: seq<array<real>>, b: Block,
                      ghost before: seq<Channel>, ghost runs: seq<RunOut>, ghost outs: seq<seq<real>>)
      requires Valid() && b.Valid() && b.mode == Bypass && HostBuffers(input, output, env)
      requires 2 <= ch < |input| && ch < |output|
      requires |before| == 2 && |runs| == 2 && |outs| == |output|
      requires Done(b, before, runs, input, outs, output, ch)
      modifies output[ch]
      ensures Done(b, before, runs, input, outs, output, ch + 1)
    {
      ghost var s0, s1 := ChannelState(0), ChannelState(1);
      ghost var rest := Contents(output);
      Passthrough(input[ch], output[ch]);
      assert ChannelState(0) == s0 && ChannelState(1) == s1;
      forall c | 0 <= c < |output|
        ensures output[c][..] == if c < ch + 1 && c < 2 then runs[c].out
                                 else if c < ch + 1 && b.mode == Bypass then input[c]
                                 else outs[c]
      {
        if c != ch {
          assert output[c][..] == rest[c];
        }
      }
    }
  }
}
