# FROGG chorus/flanger engine in Dafny

This project models the signal path of FROGG, a JUCE audio plugin that works as
a chorus or a flanger. The plugin keeps one circular delay buffer per stereo
channel, holding two seconds of audio. For every sample it:

- writes the input plus the previous feedback sample at a shared write head;
- computes a sine LFO for each channel, with the right channel offset in phase;
- maps the depth-scaled LFO value with `jmap` onto a delay time, from 5–30 ms
  for the chorus or 1–5 ms for the flanger;
- reads the buffer that far behind the write head, interpolating linearly;
- keeps the delayed sample times the feedback gain for the next sample;
- advances the write head;
- mixes the dry and wet signals back into the host's channel arrays in place.

The model has four modules:

- `DelayLine` (`DelayLine.dfy`): the ring arithmetic, all pure:
  - the C++ float-to-`int` truncation;
  - the wrap-once write head;
  - the wrap-once read head;
  - the split of a read head into `x`, `x1` and a fraction;
  - `lin_interp`;
  - one channel's write-then-read.
- `Modulation` (`Modulation.dfy`): the rest of the engine, as pure functions:
  - the six host parameters and their declared ranges;
  - `jmap`, the delay time of each effect type, and the LFO phase wraps;
  - the feedback and the dry/wet mix;
  - the buffer length;
  - the engine state as a value;
  - `Step`, one iteration of the per-sample loop;
  - `Run`, the loop over a block as a fold of `Step`.
- `Processor` (`Processor.dfy`): the plugin object as a class. Its fields are
  the processor's own state fields. The rings are nullable arrays that
  `PrepareToPlay` allocates and zero-fills. The methods `ProcessSample`,
  `ProcessFrame` and `ProcessBlock` update the rings and the channel arrays in
  place. They are proved to leave exactly the state and the output that `Step`
  and `Run` give.
- `EngineProperties` (`Properties.dfy`): what holds over a whole block:
  - where the write head ends up;
  - which ring slots a block writes and with what;
  - that no output depends on later input;
  - that a fully dry mix passes the input through;
  - that the LFO phase stays in one cycle;
  - the echo pattern of a fixed delay with feedback;
  - two 48 kHz impulse scenarios, one for the chorus and one for the flanger.

Samples, phases and times are exact reals. `sin(2 pi phase)` is a parameter
`lfo` of type `real -> real`, and the model assumes only that its values lie in
`[-1, 1]` (`LfoBounded`). `getSampleRate()` is the field `sampleRate`, which
`PrepareToPlay` sets. The host parameters are passed to each call as one
`Params` value.

### Where the code behaves differently from the effect's usual description

The model follows the code in each of these cases.

- The buffer length is `sampleRate * 2` truncated toward zero, because it is
  stored in an `int` (Source/PluginProcessor.cpp:158). It is not rounded.
- The LFO phase is wrapped only when it exceeds 1, so it can be exactly 1. It
  lies in `[0, 1]`, not `[0, 1)`.
- The right channel's phase is wrapped once. With a phase offset of up to 1.1,
  it lies in `[0, 1]` only when `phase + offset <= 2`. Otherwise it can reach
  1.1. Since `sin` has period 1 in the phase, a phase of 1.1 gives the same
  value as 0.1. The model does not use that fact, because it treats the
  waveform as any function bounded by `[-1, 1]`.
- `prepareToPlay` does not reset the two feedback samples. Only the constructor
  zeroes them, so after a re-prepare the first sample still receives the old
  feedback.
- The feedback sample is written into the ring one sample after the delayed
  sample is read. With a whole-number delay of `D` samples, successive echoes
  are therefore `D + 1` samples apart, not `D`. At 48 kHz the flanger, with
  depth 0 and feedback 0.5, turns an impulse into echoes of 1, 0.5 and 0.25 at
  samples 144, 289 and 434 (`FlangerImpulseEchoes`). The chorus impulse
  reappears at sample 840 (`ChorusImpulseDelay`). Both scenarios assume that
  no feedback is pending from before the prepare. A pending value `f` would
  be added to the first echo, so it would come back as `1 + f`
  (`EchoRecurrence` at `n = D`).
- Nothing stops the block processor from running on an empty ring. That happens
  at a sample rate below 0.5 Hz, where the length truncates to 0. The model
  requires a sample rate of at least `MinSampleRate` (0.5) to process. Under
  the declared parameter ranges, that bound alone keeps every ring access in
  range.

## Model

| member | source | states |
|---|---|---|
| DelayLine.TruncToInt | Source/PluginProcessor.cpp:299-301 | A C++ `(int)` conversion truncates toward zero: for `x >= 0` the result is the largest integer not above `x`; for `x < 0` it is the smallest not below |
| DelayLine.Slot | Source/PluginProcessor.cpp:324-328 | The write head after `j` advances from `start` always indexes the ring |
| DelayLine.SlotIsMod | Source/PluginProcessor.cpp:324-328 | Advancing the wrap-once write head `j` times gives `(start + j) mod len` |
| DelayLine.SlotOneTurn | Source/PluginProcessor.cpp:324-328 | Within one turn, the write head after `j` advances is `start + j`, wrapped once |
| DelayLine.SlotInjective | Source/PluginProcessor.cpp:324-328 | Within one turn, different sample numbers write different ring slots |
| DelayLine.LinInterpBetween | Source/PluginProcessor.cpp:399-402 | For a fraction in `[0, 1]`, the two-point blend lies between its end points |
| DelayLine.LinInterp | Source/PluginProcessor.cpp:399-402 | `lin_interp(a, b, 0) == a`, `lin_interp(a, b, 1) == b`, the result moves linearly with the fraction (`r - a == t * (b - a)`), and for a fraction in `[0, 1]` it lies between `a` and `b` |
| DelayLine.SplitReadHead | Source/PluginProcessor.cpp:298-313 | For a read head in `[0, length)`, `x` is its floor, `x` and `x1` are valid ring indices, `x1` is `x` advanced once with wrap, the fraction is in `[0, 1)`, and `x + frac` gives back the read head |
| DelayLine.SplitReadHeadWraps | Source/PluginProcessor.cpp:300-313 | `x1 == (x + 1) mod length` |
| DelayLine.ReadInterpolated | Source/PluginProcessor.cpp:315-317 | The interpolated read lies between the two neighbouring slots it blends |
| DelayLine.ReadInterpolatedAtSlot | Source/PluginProcessor.cpp:298-317 | At a whole-number position, the read returns that slot exactly |
| DelayLine.ReadHead | Source/PluginProcessor.cpp:285-296 | For a delay in `[0, length]`, the wrap-once read head lies in `[0, length)` and is `writeHead - delay`, plus one length if that is negative |
| DelayLine.ReadBehind | Source/PluginProcessor.cpp:285-317 | The delayed sample read `delaySamples` behind the write head lies between the two ring slots around the wrapped read head |
| DelayLine.ReadBehindWhole | Source/PluginProcessor.cpp:285-317 | A whole-number delay `d` reads exactly the slot written `d` samples ago; a delay of one full length reads the slot under the write head |
| DelayLine.WriteThenRead | Source/PluginProcessor.cpp:241-317 | One channel in one sample stores input plus feedback at the write head, leaves every other slot as it was, and reads the delayed sample from the updated ring |
| DelayLine.NextWriteHead | Source/PluginProcessor.cpp:323-328 | The advanced write head stays in `[0, length)` and is 0 exactly when the old head was the last slot |
| DelayLine.NextWriteHeadIsMod | Source/PluginProcessor.cpp:323-328 | The advanced write head is `(writeHead + 1) mod length` |
| Modulation.DefaultParams | Source/PluginProcessor.cpp:30-64 | The declared default values lie within the declared ranges, and the default type is the flanger |
| Modulation.Jmap | Source/PluginProcessor.cpp:270-279 | `jmap` sends the source end points to the target end points |
| Modulation.JmapBetween | Source/PluginProcessor.cpp:270-279 | A value inside the source range is mapped inside the target range |
| Modulation.JmapRoundTrip | Source/PluginProcessor.cpp:270-279 | Mapping back from the target range to the source range returns the original value |
| Modulation.DelayTime | Source/PluginProcessor.cpp:266-279 | For an LFO value in `[-1, 1]`, type 0 gives a delay time in `[0.005, 0.03]` s and any other type one in `[0.001, 0.005]` s; a value of 0 gives the midpoint of the range |
| Modulation.WrapPhase | Source/PluginProcessor.cpp:249-251 | The single wrap subtracts at most one cycle and takes any phase in `[0, 2]` into `[0, 1]` |
| Modulation.AdvancePhase | Source/PluginProcessor.cpp:255-260 | If the phase is in `[0, 1]` and `rate <= sampleRate`, the advanced phase is in `[0, 1]`; a phase that advances exactly to 1 stays 1, because only values above 1 are wrapped |
| Modulation.RightPhase | Source/PluginProcessor.cpp:247-253 | The right phase lies in `[0, 1.1]`, and it is at most 1 exactly when `phase + offset <= 2` |
| Modulation.Feedback | Source/PluginProcessor.cpp:319-321 | The fed-back sample is 0 at gain 0, and with a gain in `[0, 1)` it is strictly smaller in magnitude than a nonzero delayed sample |
| Modulation.FeedbackShrinks | Source/PluginProcessor.cpp:319-321 | A gain in `[0, 1)` never enlarges the delayed sample, and strictly shrinks a nonzero one |
| Modulation.Mix | Source/PluginProcessor.cpp:330-336 | The dry/wet mix equals the input at `dryWet = 0` and the delayed sample at `dryWet = 1`; it is `lin_interp` from input to delayed sample, and lies between them for a mix in `[0, 1]` |
| Modulation.BufferLength | Source/PluginProcessor.cpp:157-158 | The ring length is `sampleRate * MAX_DELAY_TIME` truncated: it is at least 1 exactly when the sample rate is at least 0.5 Hz, and then it is at least half the sample rate |
| Modulation.DelaySamples | Source/PluginProcessor.cpp:262-283 | For parameters in range and a sample rate of at least 0.5 Hz, the delay in samples is positive and at most the ring length; with depth 0 it is the sample rate times the midpoint delay time |
| Modulation.Step | Source/PluginProcessor.cpp:239-337 | One sample writes input plus pending feedback into slot `writeHead` of each ring and nothing else. It reads the delayed sample behind the write head, stores delayed times gain as the new feedback, advances the write head by one slot and the phase by one wrap, and outputs the dry/wet mix. The state stays usable |
| Modulation.StepFromParts | Source/PluginProcessor.cpp:239-337 | The state and samples built field by field, as the C++ loop body builds them, are exactly what `Step` gives |
| Modulation.Run | Source/PluginProcessor.cpp:239-337 | A block keeps the state usable and yields as many output samples as input samples on each channel |
| Modulation.RunEmpty | Source/PluginProcessor.cpp:239 | An empty block changes nothing and outputs nothing |
| Modulation.RunSnoc | Source/PluginProcessor.cpp:239-337 | Processing one more sample after a block is one more `Step`, appending its outputs |
| Processor.ZeroMem | Source/PluginProcessor.cpp:176-184 | `zeromem` sets every element of the buffer to 0 |
| Processor.FroggProcessor.State | Source/PluginProcessor.h:83-93 | The processor's fields, read as an engine state, form a usable state at the current sample rate |
| Processor.FroggProcessor.constructor | Source/PluginProcessor.cpp:66-78 | A new processor has no rings, length 0, write head 0, both feedback samples 0 and phase 0 |
| Processor.FroggProcessor.PrepareToPlay | Source/PluginProcessor.cpp:147-188 | Prepare allocates two fresh, distinct rings of length `sampleRate * 2` truncated, fills both with zeros, and resets the write head and the LFO phase to 0. The feedback samples are left unchanged. The rings are empty exactly when the sample rate is below 0.5 Hz; from 0.5 Hz up, the processor is then ready to process from a cleared state |
| Processor.FroggProcessor.ProcessSample | Source/PluginProcessor.cpp:239-337 | One loop iteration writes the two ring slots, reads the two neighbouring slots of each read head from the arrays, updates the fields in place exactly as `Step` does, and returns `Step`'s two outputs |
| Processor.FroggProcessor.ProcessFrame | Source/PluginProcessor.cpp:239-337 | One pass of the loop overwrites channel sample `i` with `Step`'s output, changes no other channel sample, and leaves `Step`'s new state |
| Processor.FroggProcessor.ProcessBlock | Source/PluginProcessor.cpp:222-337 | The in-place block processor leaves the processor in `Run`'s final state and both channel arrays holding `Run`'s outputs |
| EngineProperties.RunPrefix | Source/PluginProcessor.cpp:239-337 | Processing the first `m` samples of a block gives the first `m` outputs of processing the whole block |
| EngineProperties.RunOutputAt | Source/PluginProcessor.cpp:239-337 | Output sample `n` is one `Step` on input `n` from the state the first `n` samples left, so later input never changes an earlier output |
| EngineProperties.RunWriteHead | Source/PluginProcessor.cpp:323-328 | After a block of `n` samples, the write head has advanced `n` slots round the ring |
| EngineProperties.RunWriteHeadMod | Source/PluginProcessor.cpp:323-328 | After a block of `n` samples, the write head is `(writeHead + n) mod length`, so it stays in `[0, length)` |
| EngineProperties.RunDryIsIdentity | Source/PluginProcessor.cpp:330-336 | With `dryWet = 0`, both output channels equal the input channels for every block |
| EngineProperties.RunPhaseInUnit | Source/PluginProcessor.cpp:255-260 | Starting in `[0, 1]`, with `rate <= sampleRate`, the shared LFO phase is still in `[0, 1]` after any block |
| EngineProperties.RunRingWritten | Source/PluginProcessor.cpp:241-243 | Within one turn of the ring, a block leaves in the slot `j` places after the starting write head the `j`-th input plus the feedback pending at that sample, in both channels |
| EngineProperties.RunRingUntouched | Source/PluginProcessor.cpp:241-243 | Slots a block has not reached keep their old contents, in both channels |
| EngineProperties.WetFeedback | Source/PluginProcessor.cpp:319-336 | With `dryWet = 1`, the feedback pending after `j` samples is output `j - 1` times the gain |
| EngineProperties.StepReadsWhole | Source/PluginProcessor.cpp:285-317 | With depth 0 and a whole-number delay `D`, the left channel's delayed sample in one step is exactly the left ring slot `D` places behind the write head, wrapped once, as the ring stands after the write |
| EngineProperties.WetOutputReadsRing | Source/PluginProcessor.cpp:285-317 | For a block started at write head 0, within one turn of the ring, with depth 0, a whole-number delay `D` and `dryWet = 1`, left output `n` is the left ring slot `D` places behind slot `n` (wrapped once), as that ring stands after sample `n` |
| EngineProperties.EchoRecurrence | Source/PluginProcessor.cpp:239-337 | From a cleared ring, within one turn of the ring, with depth 0, a whole-number delay `D` and `dryWet = 1`, the left output is silent for `D` samples. After that, sample `n` is input `n - D` plus the fed-back sample: the pending feedback at `n = D`, else output `n - D - 1` times the gain |
| EngineProperties.DepthZeroDelaysAt48k | Source/PluginProcessor.cpp:262-283 | At 48 kHz the ring holds 96000 samples (the length set at line 158), and with depth 0 the delay is 840 samples for the chorus and 144 for the flanger |
| EngineProperties.ChorusImpulseDelay | Source/PluginProcessor.cpp:147-337 | After a prepare at 48 kHz with no feedback pending from before it, a unit impulse through the fully wet chorus with depth 0 and no feedback gives silence for 840 samples, then the impulse at sample 840 in the left output |
| EngineProperties.FlangerImpulseEchoes | Source/PluginProcessor.cpp:147-337 | After a prepare at 48 kHz with no feedback pending from before it, a unit impulse through the fully wet flanger with depth 0 and feedback 0.5 gives silence for 144 samples, then echoes of 1, 0.5 and 0.25 at samples 144, 289 and 434, with silence at 145, in the left output |

## Left out

- The editor (Source/PluginEditor.cpp, Source/PluginEditor.h) is not part of
  this model. It is user-interface wiring with no signal logic.
- `getStateInformation` and `setStateInformation` are left out. They serialise
  the parameters through JUCE's XML and binary helpers, which are library
  calls.
- The plugin metadata and lifecycle stubs, `releaseResources`, the destructor,
  `isBusesLayoutSupported`, `createEditor` and `createPluginFilter` are left
  out. They are host glue.
- `juce::ScopedNoDenormals`, the clearing of unused output channels and the
  empty trailing channel loop are left out. They are library calls or no-ops.
- `mDelayTimeSmoothed` is left out. It is assigned in `prepareToPlay` but never
  read.
- `samplesPerBlock` is accepted by `PrepareToPlay` and ignored, as in the code.
- IEEE `float` rounding and the actual values of `sin` are not modelled.
  Samples are exact reals, and the sine is any function bounded by `[-1, 1]`.
- The host may write the parameters from another thread during a block. The
  model reads them once per call, as an immutable `Params` value.
- `delete[]` of the old rings is not modelled. `PrepareToPlay` allocates fresh
  arrays, and the old ones are left to Dafny's memory model.
- The host's audio buffer is modelled as two channel arrays of equal length
  that are distinct from each other and from the rings. Mono buffers, where
  the code would take write pointer 1 of a one-channel buffer, are outside the
  model.
- Processor.FroggProcessor.PrepareToPlay: requires a sample rate above -0.5
  whose doubled value fits in an `int`. No host supplies a negative rate.
  From -0.5 down, the doubled rate truncates to a negative length and the
  array allocation throws, which the model does not capture. Above `INT_MAX`
  the conversion itself is undefined. On (-0.5, 0.5) the length is 0, and
  prepare leaves empty rings, as in the code.
- Processor.FroggProcessor.ProcessBlock: requires a sample rate of at least
  0.5 Hz. Below it the ring is empty, and the C++ would write outside it.
- EngineProperties.StepReadsWhole: states the whole-number read for the left
  channel only. The same statement for the right channel, whose read goes
  through its own LFO phase, is not proved.
- EngineProperties.WetOutputReadsRing: states the left output only, since it
  is built on the left-channel `StepReadsWhole`.
- EngineProperties.EchoRecurrence: states the echo pattern for the left
  channel only. The right channel reads its own phase, which is the same
  delay at depth 0, but that statement is not spelled out.
- EngineProperties.RunPhaseInUnit: needs `rate <= sampleRate`. At lower sample
  rates, a single wrap cannot keep the phase in one cycle.
- Modulation.DelaySamples: states only the range of the delay and its depth-0
  value, not the full formula for a nonzero depth.
- Modulation.Run: its own contract states only the length and readiness
  facts. What a block computes is stated by `RunSnoc` and the
  `EngineProperties` lemmas.
