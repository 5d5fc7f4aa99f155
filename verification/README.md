# Phazer: a verified model of the phaser engine

Phazer is an audio phaser plug-in. A bank of ten low-frequency generators drives it: sine,
triangle, square, saw, two anti-aliased variants, and four difference-equation systems (Van der
Pol, Duffing, Chua, Lorenz). The generator's first output sweeps the centre frequency of a cascade
of second-order all-pass filters. The filtered signal is scaled by the mix parameter and added to
the dry input.

This project models the two parts of the source that do the work, in Dafny:

- the `Oscillators` class (`Source/Oscillators.cpp`, `Source/Oscillators.h`);
- `PhazerAudioProcessor::process` and `PhazerAudioProcessor::mainEffectLoop`
  (`Source/PluginProcessor.cpp`), which clear the unused output channels, run the phaser over
  the buffer in place and keep a copy for the crossfade.

Each part has two layers:

- **A pure specification.** `OscillatorSpec` and `PhaserSpec` describe every operation as a
  function on a value snapshot of the object's fields. The properties of the system are proved
  there as lemmas.
- **An imperative class proved against it.** `OscillatorBank.Oscillators` and
  `PhazerProcessor.PhazerAudioProcessor` have the source's fields and its in-place updates.
  Each method is proved to perform the transition of the same name. The audio buffer is an
  `array2<real>` (channel by sample). The loops over samples and filter stages are `while`
  loops with invariants.

The JUCE pieces the processor calls are not part of this model. They appear in `Juce` as
uninterpreted fields of a `Library` record:

- `IIRFilter::processSingleSampleRaw`;
- `LinearSmoothedValue::getNextValue` and `setValue`;
- `cos`.

Everything proved holds for any functions that fill these fields. A smoother is seen only
through the value it returns and its target; JUCE's ramp bookkeeping (samples left and step)
stays inside the library. The one thing required of the smoother's functions is `Glides`, a
contract over that view: a step never overshoots the target and moves unless it is already
there, and setting a value makes it the target without overshooting it. JUCE's linear ramp
keeps this on the states it reaches, where the step times the samples left is the distance to
the target; that fact about JUCE is not proved here.

`CMath` holds the C library functions the oscillator uses, over exact reals: `fabs`, `fmod` and
the truncating float-to-int conversion.

Behaviour of the code as written, which the model follows:

- **Case 9 has no `break`.** After the Chua equations run, control falls into the Lorenz case.
  One Chua step is therefore the Chua update followed by the Lorenz update (`ChuaFallsThrough`).
- **The switch and the header enum disagree on 7 and 8.** The switch runs Van der Pol for 7 and
  Duffing for 8, but the enum in `Oscillators.h` names 7 `Duffing` and 8 `Vanderpol`. The model
  keys on the integers, as the switch does.
- **`setType` always ends at the same state.** It calls `initializeChaos` for Lorenz and Chua and
  then `reset`, so the chaotic seed is always overwritten. Every tag ends with all three
  registers at 0.1 and the counter at zero.
- **An unknown tag is stored as given.** `getNextSample` then matches no case and changes
  nothing. The tag is not rejected, and the previous type is not kept.
- **The crossfade never happens.** The channel loop of the crossfade in `process` runs while
  `chan > getNumChannels()`, which is false at once. A pending crossfade therefore only clears
  its flag. The buffer is copied into the crossfade buffer on every block, not only after a
  power toggle.

## Model

| member | source | states |
|---|---|---|
| CMath.Abs | Source/Oscillators.cpp:212 | `fabs`: the result is non-negative and is x or -x |
| CMath.TruncateToInt | Source/PluginProcessor.cpp:180 | `static_cast<int>` rounds toward zero: the result lies within one unit of x on x's side of zero |
| CMath.Fmod | Source/Oscillators.cpp:58 | `fmodf` for a non-negative counter: the remainder lies in [0, b), is at most a, and a minus it is a whole multiple of b |
| CMath.FmodShift | Source/Oscillators.cpp:58 | adding k whole periods to the dividend leaves the remainder unchanged |
| Juce.GetNextValue | Source/PluginProcessor.cpp:172-180 | a smoother step keeps the target, and a smoother at its target stays there |
| Juce.SetValue | Source/PluginProcessor.cpp:149-154 | setting a value makes it the smoother's target |
| Juce.NextValuePositive | Source/PluginProcessor.cpp:172-185 | a rate smoother at or above zero heading for a positive target hands a positive rate to setFrequency |
| Juce.SetValueNonNegative | Source/PluginProcessor.cpp:149 | telling a non-negative rate to a smoother at or above zero keeps it at or above zero |
| Juce.SmootherAtRest | Source/PluginProcessor.cpp:152-175 | a smoother resting at v and told v returns v on the next step |
| Juce.SetCoefficients | Source/PluginProcessor.cpp:201-202 | setCoefficients replaces the coefficients and keeps the filter's state variables |
| Juce.ProcessSingleSampleRaw | Source/PluginProcessor.cpp:206-207 | a filter pass keeps the coefficients and updates only the state variables, as the library's recurrence says |
| OscillatorSpec.Initial | Source/Oscillators.cpp:26-34 | the constructed state is consistent (positive rate, period its reciprocal) and selects Sine with the counter at zero |
| OscillatorSpec.ChuaNL | Source/Oscillators.cpp:210-213 | chuaNL is piecewise linear: slope -chua1 on [-1, 1], slope -chua2 outside, continuous at plus and minus 1 |
| OscillatorSpec.ChuaNLOdd | Source/Oscillators.cpp:210-213 | chuaNL is odd: f(-x) = -f(x) |
| OscillatorSpec.InitializeChaos | Source/Oscillators.cpp:148-153 | seeding the registers keeps the state consistent |
| OscillatorSpec.Reset | Source/Oscillators.cpp:155-162 | a reset keeps a consistent state consistent |
| OscillatorSpec.ResetICs | Source/Oscillators.cpp:164-169 | the registers become the first three initial conditions; tuning, type, counter and trigger flags are untouched |
| OscillatorSpec.SetType | Source/Oscillators.cpp:196-203 | the tag is stored, all three registers end at 0.1 and the counter at zero for every tag (the chaotic seed is overwritten), and nothing else changes |
| OscillatorSpec.SetSampleRate | Source/Oscillators.cpp:171-180 | round trip: getSampleRate returns the rate set; the period times the rate is 1; every other field, including the frequency-derived parameters, is kept |
| OscillatorSpec.SetFrequency | Source/Oscillators.cpp:182-194 | round trip: getFrequency returns the frequency set; the period in samples is sampleRate / freq, increment times period is 2 pi, the Duffing stiffness follows; nothing else changes |
| OscillatorSpec.SineUpdate | Source/Oscillators.cpp:45-53 | Sine writes its two outputs into the two registers and leaves the third output slot alone |
| OscillatorSpec.TriangleUpdate | Source/Oscillators.cpp:56-61 | Triangle advances the counter by one and outputs a value within one unit of the input in slot 0 only |
| OscillatorSpec.SquareUpdate | Source/Oscillators.cpp:64-70 | Square advances the counter by one and outputs exactly input + 1 or input - 1 |
| OscillatorSpec.SawRamp | Source/Oscillators.cpp:76 | the saw ramp lies in [-1, 1) |
| OscillatorSpec.SawUpdate | Source/Oscillators.cpp:73-78 | Saw advances the counter by one and outputs a value in [input - 1, input + 1) |
| OscillatorSpec.AASquareUpdate | Source/Oscillators.cpp:81-89 | AASquare outputs -1, 0 or 1, 0 exactly when `delta` is 0, which happens exactly on the first sample of a half period |
| OscillatorSpec.AASquareIgnoresInput | Source/Oscillators.cpp:81-89 | AASquare ignores its input: two inputs give the same state and the same outputs |
| OscillatorSpec.AASawUpdate | Source/Oscillators.cpp:92-101 | AASaw outputs the input and arms `delta2` on a period start, outputs input - 1 and disarms it on the armed next sample, and stays in [input - 1, input + 1) |
| OscillatorSpec.VanderpolUpdate | Source/Oscillators.cpp:104-113 | case 7 writes its two outputs into the two registers and leaves the third output slot alone |
| OscillatorSpec.DuffingUpdate | Source/Oscillators.cpp:116-122 | case 8 writes its two outputs into the two registers and leaves the third output slot alone |
| OscillatorSpec.ChuaUpdate | Source/Oscillators.cpp:125-132 | the Chua equations write all three outputs into the three registers |
| OscillatorSpec.LorenzUpdate | Source/Oscillators.cpp:135-143 | the Lorenz equations write all three outputs into the three registers |
| OscillatorSpec.GetNextSample | Source/Oscillators.cpp:40-145 | getNextSample keeps the state consistent and the tuning fixed; types 2 to 6 advance the counter by one and leave the registers alone; types 1, 7, 8, 9, 10 keep the counter and hold their outputs in the registers; a tag outside 1..10 changes nothing |
| OscillatorSpec.SineConservesEnergy | Source/Oscillators.cpp:45-53 | with no input the Sine step preserves x^2 + w^2 y^2 + T w^2 x y, so its orbit stays on one conic |
| OscillatorSpec.ChuaFallsThrough | Source/Oscillators.cpp:125-143 | a type 9 step is the Chua update followed by the Lorenz update |
| OscillatorSpec.LorenzInputGain | Source/Oscillators.cpp:135-143 | the Lorenz input is added once, to the first output and register only |
| OscillatorSpec.OriginIsFixed | Source/Oscillators.cpp:40-145 | with zero registers and no input, the Sine, Duffing, Chua and Lorenz steps stay at the origin and output zeros |
| OscillatorSpec.PhaseOnly | Source/Oscillators.cpp:56-101 | the phase-counter waveforms read the counter only through its phase in the period and half period |
| OscillatorSpec.ShiftedByPeriods | Source/Oscillators.cpp:56-101 | moving the counter by whole periods keeps both phases and the rest of the state |
| OscillatorSpec.PhaseWaveformsPeriodic | Source/Oscillators.cpp:56-101 | types 2 to 6 are periodic in the counter: k whole periods later the output and the state (apart from the counter) are the same |
| OscillatorSpec.AASawTwoStageReset | Source/Oscillators.cpp:92-101 | AASaw's reset takes two samples: the input on the period start, then input - 1 |
| OscillatorBank.Oscillators.constructor | Source/Oscillators.cpp:26-34 | the constructed object is consistent and holds the initial state |
| OscillatorBank.Oscillators.GetNextSample | Source/Oscillators.cpp:40-145 | the object and the output array undergo exactly the spec's getNextSample, and the object stays consistent |
| OscillatorBank.Oscillators.SineStep | Source/Oscillators.cpp:45-53 | case 1 in place equals SineUpdate |
| OscillatorBank.Oscillators.PhaseStep | Source/Oscillators.cpp:56-101 | cases 2 to 6 after the counter increment equal the spec's update for that case |
| OscillatorBank.Oscillators.VanderpolStep | Source/Oscillators.cpp:104-113 | case 7 in place equals VanderpolUpdate |
| OscillatorBank.Oscillators.DuffingStep | Source/Oscillators.cpp:116-122 | case 8 in place equals DuffingUpdate |
| OscillatorBank.Oscillators.ChuaStep | Source/Oscillators.cpp:125-132 | case 9 up to the missing break equals ChuaUpdate |
| OscillatorBank.Oscillators.LorenzStep | Source/Oscillators.cpp:135-143 | case 10 in place equals LorenzUpdate |
| OscillatorBank.Oscillators.InitializeChaos | Source/Oscillators.cpp:148-153 | the object undergoes the spec's initializeChaos |
| OscillatorBank.Oscillators.Reset | Source/Oscillators.cpp:155-162 | the object undergoes the spec's reset |
| OscillatorBank.Oscillators.ResetICs | Source/Oscillators.cpp:164-169 | the object undergoes the spec's resetICs with the array's contents |
| OscillatorBank.Oscillators.SetSampleRate | Source/Oscillators.cpp:171-175 | the object undergoes the spec's setSampleRate |
| OscillatorBank.Oscillators.GetSampleRate | Source/Oscillators.cpp:177-180 | returns the state's sample rate, the value `OscillatorSpec.GetSampleRate` gives, so the round trip of SetSampleRate holds for the object |
| OscillatorBank.Oscillators.SetFrequency | Source/Oscillators.cpp:182-189 | the object undergoes the spec's setFrequency, so getFrequency returns the frequency set |
| OscillatorBank.Oscillators.GetFrequency | Source/Oscillators.cpp:191-194 | returns the state's frequency in hertz, the value `OscillatorSpec.GetFrequency` gives |
| OscillatorBank.Oscillators.SetType | Source/Oscillators.cpp:196-203 | the object undergoes the spec's setType: tag stored, registers at 0.1, counter at zero |
| OscillatorBank.Oscillators.GetType | Source/Oscillators.cpp:205-208 | returns the stored tag, the value `OscillatorSpec.GetType` gives |
| PhaserSpec.Advance | Source/PluginProcessor.cpp:172-180 | every smoother steps exactly once |
| PhaserSpec.Smooth | Source/PluginProcessor.cpp:172-180 | each control takes its smoother's new value, numStages truncated; the rate stays positive |
| PhaserSpec.Tick | Source/PluginProcessor.cpp:185-186 | the oscillator is retuned to the smoothed rate and advanced once with input 0; nothing else changes |
| PhaserSpec.Rebuild | Source/PluginProcessor.cpp:187-196 | BW is centre / 3 * width, the section has the all-pass form, and Re is -2 depth cos(Omega (centre + BW osc[0])) |
| PhaserSpec.Modulate | Source/PluginProcessor.cpp:172-196 | the control update keeps the engine ready, tracks the smoothers, advances the oscillator once with input 0, builds the all-pass section, and leaves filters, timing and taps alone |
| PhaserSpec.ModulateIgnoresTaps | Source/PluginProcessor.cpp:169-196 | the control update does not depend on the sample fields |
| PhaserSpec.Cascade | Source/PluginProcessor.cpp:204-208 | the stage loop keeps the filter's coefficients |
| PhaserSpec.CascadeCompose | Source/PluginProcessor.cpp:204-208 | m passes followed by n passes are m + n passes |
| PhaserSpec.FilterStereo | Source/PluginProcessor.cpp:198-208 | both channels go 4 * numStages times through their own filter, each given the section's coefficients; only taps and filters change |
| PhaserSpec.StereoSample | Source/PluginProcessor.cpp:169-211 | one stereo iteration keeps the engine ready, the timing and the reset flag |
| PhaserSpec.StereoSampleMeaning | Source/PluginProcessor.cpp:169-211 | one stereo iteration: smoothers step once, all-pass form, 4 * numStages passes with separate left and right filter state, outputs in + wet * mix, oscillator stepped once |
| PhaserSpec.FilterMono | Source/PluginProcessor.cpp:247-253 | the mono stage loop runs a local copy of leftin through the left filter only |
| PhaserSpec.MonoSample | Source/PluginProcessor.cpp:222-255 | one mono iteration keeps the engine ready, the timing and the reset flag |
| PhaserSpec.MonoSampleMeaning | Source/PluginProcessor.cpp:222-255 | one mono iteration: as stereo on the left channel; rightin, leftout, rightout and the right filter are untouched |
| PhaserSpec.StereoSampleParts | Source/PluginProcessor.cpp:169-208 | a stereo iteration is the load, the control update and the filtering in turn |
| PhaserSpec.MonoSampleParts | Source/PluginProcessor.cpp:222-255 | a mono iteration is the load, the control update and the filtering in turn |
| PhaserSpec.ModulateIgnoresRight | Source/PluginProcessor.cpp:172-196 | the control update reads neither the sample fields nor the right filter: engines agreeing on the rest stay agreeing |
| PhaserSpec.StereoLeftIsMono | Source/PluginProcessor.cpp:169-255 | one stereo iteration and one mono iteration, from engines that agree except on the sample fields and the right filter, give the same left output and keep the engines agreeing |
| PhaserSpec.StereoLoopLeftIsMono | Source/PluginProcessor.cpp:161-258 | over the whole block the left channel of the stereo loop is exactly the output of the mono loop: the right input never reaches the left output, the left filter, the controls or the oscillator |
| PhaserSpec.StereoSampleDry | Source/PluginProcessor.cpp:210-211 | with the mix smoother at rest at zero, a stereo iteration outputs its inputs and leaves the smoother at rest |
| PhaserSpec.MonoSampleDry | Source/PluginProcessor.cpp:255 | the same for a mono iteration |
| PhaserSpec.StereoLoop | Source/PluginProcessor.cpp:167-212 | the stereo loop produces one output per input sample and keeps the engine ready |
| PhaserSpec.MonoLoop | Source/PluginProcessor.cpp:219-256 | the mono loop produces one output per input sample and keeps the engine ready |
| PhaserSpec.StereoLoopStep | Source/PluginProcessor.cpp:167-212 | one loop iteration at sample samp produces the loop's output at samp and hands the rest to the remaining samples |
| PhaserSpec.MonoLoopStep | Source/PluginProcessor.cpp:219-256 | the same for the mono loop |
| PhaserSpec.StereoMixZeroIsDry | Source/PluginProcessor.cpp:167-212 | with mix at rest at zero the stereo loop leaves both channels as they were |
| PhaserSpec.MonoMixZeroIsDry | Source/PluginProcessor.cpp:219-256 | with mix at rest at zero the mono loop leaves the channel as it was |
| PhaserSpec.ModulateAdvancesOscillator | Source/PluginProcessor.cpp:185-186 | for types 2 to 6 one control update advances the counter by exactly one and keeps the type |
| PhaserSpec.StereoLoopAdvancesOscillator | Source/PluginProcessor.cpp:167-212 | the oscillator advances exactly once per sample of the stereo loop |
| PhaserSpec.MonoLoopAdvancesOscillator | Source/PluginProcessor.cpp:219-256 | the oscillator advances exactly once per sample of the mono loop |
| PhaserSpec.Retarget | Source/PluginProcessor.cpp:149-154 | each smoother is told its own parameter's value |
| PhaserSpec.BlockTiming | Source/PluginProcessor.cpp:143-147 | nums, chans and sampRate are the buffer's and the host's |
| PhaserSpec.BlockTimingPeriod | Source/PluginProcessor.cpp:145-147 | sampTime is the positive sample period and Omega is one full turn per sample period |
| PhaserSpec.BlockStart | Source/PluginProcessor.cpp:143-160 | after the block set-up the engine is ready, the reset flag is clear and the timing is the block's |
| PhaserSpec.BlockStartMeaning | Source/PluginProcessor.cpp:149-160 | the smoothers are retargeted, the oscillator takes the initial conditions exactly when the flag was set, and filters, controls, section and taps are untouched |
| PhaserSpec.PendingICsAppliedOnce | Source/PluginProcessor.cpp:156-160 | a reset request is applied once: the next block start leaves the oscillator as the first left it |
| PhaserSpec.Channels | Source/PluginProcessor.cpp:161-257 | the sample loops keep the buffer's shape; a buffer with neither one nor two channels and the engine are left untouched |
| PhaserSpec.MainEffect | Source/PluginProcessor.cpp:141-258 | mainEffectLoop clears the reset flag, sets the block timing and keeps the buffer's shape; with neither one nor two channels only the block set-up happens |
| PhaserSpec.MixZeroIsDry | Source/PluginProcessor.cpp:141-258 | with the mix parameter at zero and its smoother resting at zero, mainEffectLoop leaves every sample as it was |
| PhaserSpec.BlockStartMixAtRest | Source/PluginProcessor.cpp:149-154 | a mix smoother resting at zero and told zero stays at rest |
| PhaserSpec.Zeros | Source/PluginProcessor.cpp:110 | a cleared channel holds only zeros |
| PhaserSpec.ClearChannels | Source/PluginProcessor.cpp:107-110 | channels from the input count to the output count are silenced and every other channel is kept |
| PhaserSpec.Process | Source/PluginProcessor.cpp:105-139 | process records the power flag, clears the crossfade flag, copies the result into the crossfade buffer, and runs mainEffectLoop on the cleared buffer exactly when the power is on |
| PhaserSpec.ProcessParts | Source/PluginProcessor.cpp:105-139 | process is the clearing, the optional mainEffectLoop and the flag updates in turn |
| PhaserSpec.PowerOffPassesThrough | Source/PluginProcessor.cpp:105-139 | with the power off the input channels pass through, the output-only channels are zero, and the engine is unchanged |
| PhazerProcessor.PhazerAudioProcessor.constructor | Source/PluginProcessor.cpp:4-27 | the parameters take their declared defaults, the initial conditions are zero, and the oscillator is set to Sine |
| PhazerProcessor.PhazerAudioProcessor.Process | Source/PluginProcessor.cpp:105-139 | the object and the buffer undergo exactly the spec's process, and the object invariant is kept |
| PhazerProcessor.PhazerAudioProcessor.ClearOutputOnly | Source/PluginProcessor.cpp:107-110 | the clearing loop leaves the buffer equal to ClearChannels of its old contents |
| PhazerProcessor.PhazerAudioProcessor.MainEffectLoop | Source/PluginProcessor.cpp:141-258 | the object and the buffer undergo exactly the spec's mainEffectLoop, and the object invariant is kept |
| PhazerProcessor.PhazerAudioProcessor.RunChannels | Source/PluginProcessor.cpp:161-257 | the two channel branches in place equal Channels |
| PhazerProcessor.PhazerAudioProcessor.BeginBlock | Source/PluginProcessor.cpp:143-160 | the block set-up in place equals BlockStart |
| PhazerProcessor.PhazerAudioProcessor.StereoLoopInPlace | Source/PluginProcessor.cpp:161-213 | the stereo loop over the buffer's two channels equals StereoLoop |
| PhazerProcessor.PhazerAudioProcessor.StereoIteration | Source/PluginProcessor.cpp:167-212 | one iteration keeps the loop invariant: samples before samp hold their outputs, the rest their inputs |
| PhazerProcessor.PhazerAudioProcessor.MonoLoopInPlace | Source/PluginProcessor.cpp:215-257 | the mono loop over channel 0 equals MonoLoop |
| PhazerProcessor.PhazerAudioProcessor.MonoIteration | Source/PluginProcessor.cpp:219-256 | one iteration keeps the mono loop invariant |
| PhazerProcessor.PhazerAudioProcessor.StoreStereo | Source/PluginProcessor.cpp:210-211 | writing the pair at samp moves the written prefix of both channels one sample on |
| PhazerProcessor.PhazerAudioProcessor.StoreMono | Source/PluginProcessor.cpp:255 | writing the sample at samp moves the written prefix one sample on |
| PhazerProcessor.PhazerAudioProcessor.StereoSampleStep | Source/PluginProcessor.cpp:169-211 | the stereo loop body in place equals StereoSample |
| PhazerProcessor.PhazerAudioProcessor.MonoSampleStep | Source/PluginProcessor.cpp:222-255 | the mono loop body in place equals MonoSample |
| PhazerProcessor.PhazerAudioProcessor.Load | Source/PluginProcessor.cpp:169-170 | only leftin and rightin change |
| PhazerProcessor.PhazerAudioProcessor.FilterStereoInPlace | Source/PluginProcessor.cpp:198-211 | the filtering in place equals FilterStereo, and the outputs are in + out * mix |
| PhazerProcessor.PhazerAudioProcessor.FilterMonoInPlace | Source/PluginProcessor.cpp:247-255 | the filtering in place equals FilterMono, and the output is leftin + leftout * mix |
| PhazerProcessor.PhazerAudioProcessor.StereoStages | Source/PluginProcessor.cpp:204-208 | the stage loop runs each channel 4 * numStages times through its own filter, and leftin and rightin are kept |
| PhazerProcessor.PhazerAudioProcessor.MonoStages | Source/PluginProcessor.cpp:250-253 | the mono stage loop runs the sample 4 * numStages times through the left filter |
| PhazerProcessor.PhazerAudioProcessor.UpdateControls | Source/PluginProcessor.cpp:172-196 | the control part of an iteration in place equals Modulate |
| PhazerProcessor.PhazerAudioProcessor.SmoothParameters | Source/PluginProcessor.cpp:172-180 | the smoother steps in place equal Smooth |
| PhazerProcessor.PhazerAudioProcessor.AdvanceOscillator | Source/PluginProcessor.cpp:185-186 | setFrequency then getNextSample into `osc` in place equals Tick |
| PhazerProcessor.PhazerAudioProcessor.RebuildCoefficients | Source/PluginProcessor.cpp:187-196 | the coefficient assignments in place equal Rebuild |

## Left out

- The editor (`Source/PluginEditor.cpp`), the plug-in glue, `prepareToPlay`, state saving and
  the bus layout checks are not part of this model. The editor's writes are modelled only as
  their effect: parameter fields, `ICs`, `resetICflag` and `setType` are set from outside.
- The internals of JUCE's IIRFilter, LinearSmoothedValue and `cos` are not modelled. They are
  uninterpreted functions; only the smoother's no-overshoot behaviour (`Glides`) is required of
  them. The smoother's countdown and step are left out of its record, so the model does not
  show that JUCE's ramp meets `Glides`. The view is a simplification: the model's
  `getNextValue` is one function of (current value, target) shared by all six smoothers, while
  JUCE's next value also depends on the samples left and the step, so two smoothers at the same
  value and target can step differently (and `SMnumstages`, never given a ramp length, jumps
  straight to its target). No proved property depends on the sharing: every proof uses
  `Glides` one call at a time, on the smoother at hand.
- Floating point: `float` and `double` are exact reals. Rounding, the `float`/`double`
  conversions and overflow to infinity are not modelled.
- Threads: the model takes the editor and the audio callback to run one at a time.
- `LFOangle` and `LFOdelta` are written by the loops but never read. They are left out.
- The IC parameters `IC1Param` to `IC3Param` are not read by the core. `ICs` is a field that
  the editor fills.
- The crossfade blend and its `del` step are left out. The model writes the channel loop only
  as its first test, `!(chan > buffer.Length0)` with `chan` at 0, which holds for every buffer,
  so the blend body is never entered.
- Scalar members are grouped into records that the class reassigns whole: smoothers, controls,
  coefficient section, block timing and sample fields.
- Members the source leaves uninitialized start at zero
  in the constructor. The oscillator's `delta` and `delta2` keep whatever value they start
  with.
- JUCE's IIRCoefficients divides every coefficient by a0. The phaser always passes a0 = 1, so
  the model stores them as given.
- OscillatorBank.Oscillators.SetFrequency: requires a positive frequency and a consistent
  object. With zero the source divides by zero.
- OscillatorBank.Oscillators.SetSampleRate: requires a positive rate. With zero the source
  divides by zero.
- PhaserSpec.HostOk, used by PhazerProcessor.PhazerAudioProcessor.Process: requires a positive
  host sample rate and a positive rate parameter. The sample rate is divided by, and the rate
  parameter's range starts at 0.001.
- PhazerProcessor.PhazerAudioProcessor.Process: requires a buffer with at least as many
  channels as the output bus when the output bus is wider than the input bus. The host
  provides that.
- PhaserSpec.BlockStart: states readiness, the cleared flag and the timing only. The
  per-field effect is stated by PhaserSpec.BlockStartMeaning.
- PhaserSpec.StereoSample and PhaserSpec.MonoSample: state readiness, timing and flag only.
  The full effect of one iteration is stated by PhaserSpec.StereoSampleMeaning and
  PhaserSpec.MonoSampleMeaning.
