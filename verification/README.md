# Dolby-style noise-reduction worklet, modelled in Dafny

This project models the audio core of `dolby-worklet.js`. That file is an AudioWorklet processor
that runs a sidepath on every sample:

- a fixed 500 Hz one-pole high-pass;
- an envelope follower with separate attack and release times;
- a control signal that falls as the envelope rises above a threshold;
- a dynamic high-pass whose cutoff sweeps from 8000 Hz down to 1000 Hz as the control falls;
- a `tanh` soft clip.

The processor then mixes the sidepath into the dry signal. `encode` adds it, every other mode
subtracts it, and `bypass` copies the input. The result is clamped to [-1,1]. Filter memories and
envelope levels persist across blocks for two channels. A parameter record is updated by
`"params"` port messages.

The files follow the source's structure:

- `js_math.dfy` (module `JsMath`): the parts of JavaScript's `Math` object the worklet uses.
  - `Math.max`, `Math.min` and `Math.abs` are defined.
  - `Math.exp`, `Math.pow`, `Math.tanh` and `Math.PI` are a host-supplied value `MathLib`.
  - `Sound` gives the only facts the processor relies on: `exp` of a negative number lies in
    (0,1), `10^e` is positive, `tanh` lies in (-1,1) and pi is positive.
- `one_pole.dfy` (module `OnePole`): the `OnePoleHPF` class, whose `x1`/`y1` fields are updated
  in place. The class is tied to a value-level `Step`/`Run` of the same recurrence.
- `params.dfy` (module `Params`): the parameter record, port messages as records of optional
  fields, and the `{ ...params, ...data }` merge.
- `sidepath.dfy` (module `Sidepath`): the per-sample chain on values.
  - The block constants computed at the top of `process`.
  - The sidepath stages, the mix and the clamp.
  - `Run`, the sample loop of one channel as a specification function.
- `processor.dfy` (module `Processor`): the `DolbyProcessor` class. It holds:
  - arrays of filter objects and envelope levels, one entry per channel;
  - the message handler;
  - `Process`, which overwrites the host's output buffers in place and is proved against
    `Sidepath.Run` channel by channel.

`sampleRate`, a global of the worklet scope, is a positive parameter of `Process`. Samples and
coefficients are mathematical reals.

Two behaviours of the code are made explicit:

- **Unknown modes.** A mode string other than `"bypass"` and `"encode"` is processed exactly as
  `"decode"` (`UnknownModeIsDecode`). There is no fallback to bypass: any other string fails both
  `===` tests, at `dolby-worklet.js:98` and at `dolby-worklet.js:132`.
- **Extra channels.** `hpfFixed` and `hpfDyn` hold two filters each. In any mode other than
  bypass, a block with a third channel and at least one sample therefore throws a `TypeError`.
  This happens once channels 0 and 1 are complete. The model returns `Threw` in that case.

The source comment at `dolby-worklet.js:72` says a higher alpha means a higher cutoff. The
relation is the reverse (`HpfCoeffFallsWithCutoff`). The code itself computes the intended
coefficient.

## Model

| member | source | states |
|---|---|---|
| OnePole.OnePoleHPF.constructor | dolby-worklet.js:7-10 | A new filter remembers zero input and zero output. |
| OnePole.OnePoleHPF.Process | dolby-worklet.js:12-17 | The new memory is `Step` of the old one: it remembers `x` and `y = a*(y1 + x - x1)`. The returned sample is the remembered output. |
| OnePole.Run | dolby-worklet.js:12-17 | A filter run over a non-empty sequence remembers its last input. |
| OnePole.Step | dolby-worklet.js:13-15 | The filter remembers the new input. An input equal to the remembered one only scales the previous output by `a`. From rest, the first output is `a*x`. |
| OnePole.ConstantInputDecays | dolby-worklet.js:11-17 | Holding the input at the remembered value rejects it. After `n` samples the output is `a^n` times the old output and the remembered input is unchanged. For `a` in (0,1), `a^n` lies in (0,1] and is below 1 once `n > 0`. |
| OnePole.ConstantInputNeverGrows | dolby-worklet.js:11-17 | With a coefficient in (0,1), a held input never increases the output's magnitude. |
| Sidepath.DbToLin | dolby-worklet.js:20-22 | `10^(db/20)` is a positive linear amplitude. |
| Sidepath.SoftClip | dolby-worklet.js:25-28 | The soft-clipped sidepath lies strictly inside (-1,1). |
| Sidepath.AttackSeconds | dolby-worklet.js:64 | The attack time in seconds is at least 0.1 ms and at least the requested time. It equals the floor or the requested time. |
| Sidepath.ReleaseSeconds | dolby-worklet.js:65 | The release time in seconds is at least 1 ms and at least the requested time. It equals the floor or the requested time. |
| Sidepath.SmoothingCoeff | dolby-worklet.js:66-67 | For a positive rate and time, the smoothing coefficient lies in (0,1). |
| Sidepath.HpfCoeff | dolby-worklet.js:74-76 | For a positive cutoff and sample period, the high-pass coefficient lies in (0,1). |
| Sidepath.HpfCoeffFallsWithCutoff | dolby-worklet.js:71-76 | A higher cutoff never gives a larger coefficient. |
| Sidepath.Setup | dolby-worklet.js:63-88 | The block constants satisfy `Block.Valid`. Each constant comes from the parameters as the code forms it: the floored attack and release times, the linear threshold, `dt = 1/sampleRate`, the 500 Hz fixed coefficient and `k = (15/18)*amount`. |
| Sidepath.EnvelopeStep | dolby-worklet.js:107-111 | The attack coefficient is used when the target is above the envelope, the release coefficient otherwise. The step closes the fraction `1 - coeff` of the gap. The new level lies between the old level and the target, strictly unless the two agree. |
| Sidepath.Over | dolby-worklet.js:115 | The normalised overshoot is non-negative. It is zero exactly when the envelope is at or below the threshold. |
| Sidepath.Control | dolby-worklet.js:113-116 | The control signal lies in (0,1]. It equals 1 exactly when the envelope is at or below the threshold. |
| Sidepath.ControlFallsWithLevel | dolby-worklet.js:116 | A louder envelope never raises the control signal. |
| Sidepath.Cutoff | dolby-worklet.js:118-121 | The dynamic cutoff always lies in [1000, 8000] Hz. It is 1000 Hz when `ctrl*emphasis <= 0` and 8000 Hz when `ctrl*emphasis >= 1`. |
| Sidepath.CutoffFallsWithLevel | dolby-worklet.js:118-121 | With a non-negative emphasis, a louder envelope never raises the dynamic cutoff. |
| Sidepath.DynamicCoeff | dolby-worklet.js:121-123 | The dynamic coefficient lies between the coefficients of the 8000 Hz and 1000 Hz cutoffs. |
| Sidepath.Side | dolby-worklet.js:103-128 | The sidepath sample lies in (-1,1). The fixed filter remembers the input. The dynamic filter is fed the fixed filter's output with the coefficient of the new envelope level. The new envelope lies between the old level and the rectified fixed-filter output. |
| Sidepath.Mix | dolby-worklet.js:130-132 | Encode raises the dry sample by exactly `k*side`. Every other mode lowers it by exactly `k*side`. |
| Sidepath.EncodeMirrorsDecode | dolby-worklet.js:130-132 | Encode and any non-encode mode move the dry sample by opposite amounts, so their two mixes average to the dry sample. |
| Sidepath.Clamp | dolby-worklet.js:134-136 | The result lies in [-1,1]. Values inside are kept and values outside go to the nearer bound. |
| Sidepath.MixStaysNear | dolby-worklet.js:130-136 | For an input in [-1,1], the clamped mix differs from the input by at most `abs(k)`. |
| Sidepath.Step | dolby-worklet.js:96-138 | In bypass a sample is copied and the channel state is frozen. Otherwise the state advances through the sidepath, the output lies in [-1,1], and for an input in [-1,1] the output is within `abs(k)` of the input. |
| Sidepath.Run | dolby-worklet.js:95-139 | A channel run writes one output per input sample. In bypass the outputs equal the inputs and the state is unchanged. |
| Sidepath.RunOutputsInRange | dolby-worklet.js:95-139 | In every mode but bypass, every written sample lies in [-1,1]. |
| Sidepath.RunKeepsEnvelopeNonNegative | dolby-worklet.js:107-111 | An envelope that starts non-negative stays non-negative over any run of samples. |
| Sidepath.RunSplit | dolby-worklet.js:90-142 | Processing a buffer as two consecutive blocks with the same constants gives the same samples and final state as processing it at once. |
| Sidepath.UnknownModeIsDecode | dolby-worklet.js:132 | A mode other than `"bypass"` and `"encode"` gives exactly the outputs and state of `"decode"`. |
| Params.Merge | dolby-worklet.js:48-52 | A message that is absent or not of type `"params"` changes nothing. A `"params"` message overrides every field it carries and keeps every field it omits. |
| Params.MergeTwice | dolby-worklet.js:48-52 | Two `"params"` messages in a row act as their spread: the later value of each field wins. |
| Params.MergeIdempotent | dolby-worklet.js:48-52 | Delivering the same message twice is the same as delivering it once. |
| Params.FullMessageDeterminesParams | dolby-worklet.js:48-52 | A message carrying all six fields sets the parameters to its values, whatever they were before. |
| Processor.FirstInput | dolby-worklet.js:56-58 | The first input is empty, so the block returns early, exactly when the input is missing or has no channels. Otherwise it is `inputs[0]`. |
| Processor.NumChannels | dolby-worklet.js:60 | The processed channel count is the smaller of the input's and the output's channel counts. |
| Processor.Passthrough | dolby-worklet.js:95-101 | The bypass copy leaves the output channel equal to the input channel. |
| Processor.SampleInPlace | dolby-worklet.js:103-138 | One sample through the two filter objects and the envelope level gives the new filter memories, envelope and output of `Sidepath.Step`. |
| Processor.RunSamples | dolby-worklet.js:93-141 | After the sample loop, the filter objects and the returned envelope hold the final state of `Sidepath.Run`, and the output channel holds its samples. |
| Processor.DolbyProcessor.constructor | dolby-worklet.js:31-46 | Two channels of state start at rest with separate filter objects and a zero envelope. The parameters start at their defaults. |
| Processor.DolbyProcessor.OnMessage | dolby-worklet.js:48-52 | The parameters become `Params.Merge` of the old parameters and the message. Nothing else changes. |
| Processor.DolbyProcessor.ProcessChannel | dolby-worklet.js:91-141 | Channel 0 or 1 reads its envelope level, runs its samples through its own filter objects and stores the level back. Its new state and its output channel are the final state and samples of `Sidepath.Run` from its old state. The other channel is untouched. |
| Processor.DolbyProcessor.StatefulPass | dolby-worklet.js:90-142 | One pass of the channel loop for channel 0 or 1 extends `Done` by that channel. Its state and output become its run's result. The other channel's state and every other output channel are untouched. |
| Processor.DolbyProcessor.BypassPass | dolby-worklet.js:98-101 | In bypass, a channel beyond the second is copied to its output. The channel state and every other output channel are untouched. |
| Processor.DolbyProcessor.ProcessChannels | dolby-worklet.js:90-145 | The channel loop: processed channels match `Sidepath.Run` from their old state. Unprocessed channels and their state are untouched. A third channel with samples in a mode other than bypass throws after channels 0 and 1. |
| Processor.DolbyProcessor.Process | dolby-worklet.js:55-145 | A missing or empty input returns `KeepAlive` and changes nothing. In bypass, every processed output equals its input and the state is frozen. Otherwise every output sample of channels 0 and 1 lies in [-1,1]. Non-negative envelopes stay non-negative. Only channels below `min(output.length, input.length)` are written. |

## Left out

- The audio host is not part of this model: `registerProcessor`, the `AudioWorkletProcessor` base class, the message port itself and the page script (`main.js`). The page requests two output channels, so in practice a block has at most two channels.
- Numbers are mathematical reals. IEEE-754 double rounding, single-precision storage in `Float32Array` output buffers, NaN and infinities are not modelled.
- A message field carrying `undefined`, NaN or a non-number is not modelled either.
- `Math.exp`, `Math.pow`, `Math.tanh` and `Math.PI` are abstract. Only their range facts in `JsMath.Sound` are used, so no exact coefficient values are derived.
- Sidepath.DbToLin: states only that the level is positive, because `Math.pow` is abstract.
- Sidepath.SoftClip: states only the (-1,1) range of `tanh`, not its odd symmetry or its monotonicity.
- Sidepath.SmoothingCoeff: states only the (0,1) range, because `Math.exp` is abstract.
- Sidepath.HpfCoeff: states only the (0,1) range and the ordering in `HpfCoeffFallsWithCutoff`, not the exact cutoff frequency.
- Input buffers are passed as sample sequences, since the processor only reads them. An input buffer aliasing an output buffer is not modelled.
- `Process` requires that every processed input and output channel has as many samples as `input[0]`. The host guarantees this through a fixed render quantum. A shorter channel would make the code read `undefined`; that is not modelled.
- A channel beyond the second stores `undefined` back into `env[ch]`, which grows the JavaScript array. This happens in bypass, and in every other mode when the block has no samples, since the sample loop then never reaches the missing filter. Nothing reads that entry, and the model keeps exactly two envelope levels.
- Processor.DolbyProcessor.Process: requires at least one output. The page creates the node with one output, so the host always passes one. With no output and an input present, the code would throw when it reads `output.length`; that case is not modelled.
- A message's extra fields are spread into the parameter object too. The model keeps only `type` and the six parameters, because nothing reads the other fields.
- The `|| output[0]` fallback for a missing output channel is not modelled. The channel index is always below `output.length`, so the fallback is never taken.
- No encode/decode round trip is claimed. The decoder's sidepath sees the encoded signal rather than the original, so decoding an encoded signal is only approximately the identity. With the soft clip and the clamp, that approximation has no exact form to prove.
- The filters' rejection of a constant input is proved for each filter alone (`OnePole.ConstantInputDecays`). Convergence of the whole chain under a held input is not proved.
