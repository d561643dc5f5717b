# Flanger audio processor, modelled in Dafny

The plug-in is a flanger. The host hands it blocks of audio; it takes
channel 0, scales each sample by `gain`, writes it into a 1000-sample
circular delay line and reads the line back at a delay that a low-frequency
oscillator (LFO) sweeps between 0 and `depthLFO * maxDelay` samples. The
delayed signal is interpolated linearly between two neighbouring slots,
added to the direct signal and passed through a hard limiter clamping to
`[-1, 1]`. Every further input channel is then overwritten with a copy of
channel 0, and output channels without an input are cleared. The editor
changes `gain`, `freq`, `freqLFO` and `depthLFO` through four setters;
`prepareToPlay` records the sample rate and sizes the delay line.

The project has five modules:

- `CppArith` (`cpp_arith.dfy`) — C++'s truncating `%` (`Rem`) next to Dafny's
  Euclidean `%`, and the facts about remainders the ring buffer needs.
- `Limiter` (`limiter.dfy`) — the hard limiter `limit`.
- `DelayLine` (`delay_line.dfy`) — the circular delay line as a value
  (`Ring`: contents and write cursor), writing with wrap-around, what the
  line remembers after a run of writes, the LFO delay length, the two read
  indices exactly as the source computes them, and the wrapped tap `Tap`
  the model reads through.
- `FlangerSpec` (`flanger_spec.dfy`) — one iteration of the channel-0
  sample loop as the pure functions `Next` (the new state) and `Out` (the
  output sample), the loop over a block as `Advance`/`Outs`, and the
  properties of the effect: outputs bounded, blocks compose, the line holds
  the gained input, phases advance linearly, depth 0 doubles the input, a
  frozen LFO gives a fixed echo, the centre frequency is unused.
- `Processor` (`processor.dfy`) — the processor object as a class whose
  fields are the source's members, with the constructor's defaults, the
  setters, `PrepareToPlay`, and `ProcessBlock` working in place on an
  `array2<real>` buffer (channels by samples). Each of its methods is
  proved against `FlangerSpec`: one sample updates the fields to
  `Next(...)` and outputs `Out(...)`; one block turns channel 0 into
  `Outs(...)` of its old contents and leaves the fields at `Advance(...)`.

Phases are kept in turns (the source's radians divided by 2π), so one
sample adds exactly `freq / fs` or `freqLFO / fs`. The LFO's waveform
`0.5 * (1 + sin(2π · phase))` is the parameter `wave`; nothing about its
range is assumed except where a lemma says so.

Two consequences of the code are worth stating plainly:

- at LFO depth 0 the delay (Source/PluginProcessor.cpp:204) is 0, so the
  first read index (:213) equals `writeLoc`, and because the write (:194)
  comes before the read, the read returns the sample just written; every
  output is then the limited `2 * gain * x`
  (`FlangerSpec.ZeroDepthDoublesInput`);
- `prepareToPlay` (Source/PluginProcessor.cpp:94-101) only records the
  sample rate and resizes the line: it resets no phase, no cursor and no
  sample already in the line, and pads the line with zeros.

## Model

| member | source | states |
|---|---|---|
| CppArith.Rem | Source/PluginProcessor.cpp:226 | C++ `%` for a positive divisor: the remainder lies strictly between `-n` and `n`, takes the sign of the dividend, and differs from it by a multiple of `n` |
| CppArith.RemOfNonnegative | Source/PluginProcessor.cpp:226 | on a non-negative dividend (the cursor advance) C++'s remainder is the Euclidean one |
| CppArith.RemOfSmallNegative | Source/PluginProcessor.cpp:216 | a dividend in `(-n, 0)` is its own C++ remainder, so it stays negative |
| Limiter.Limit | Source/PluginProcessor.cpp:271-279 | the result is `min` when the value is below `min`, otherwise `max` when it is above `max`, otherwise the value itself, and always within `[min, max]` when `min <= max` |
| Limiter.LimitIdempotent | Source/PluginProcessor.cpp:271-279 | limiting twice is limiting once |
| Limiter.LimitMonotone | Source/PluginProcessor.cpp:271-279 | the limiter never reorders two samples |
| DelayLine.Write | Source/PluginProcessor.cpp:194-226 | writing stores the sample at the cursor, changes no other slot, keeps the line length and advances the cursor by one modulo the length |
| DelayLine.WriteAll | Source/PluginProcessor.cpp:174-226 | after a run of writes the cursor has moved one place round the ring per sample written and stays inside it |
| DelayLine.WriteAllHistory | Source/PluginProcessor.cpp:194-226 | after a run of writes, the slot `j` places behind the last write holds the `j`-th most recent sample, for every `j` below the line length, however often the cursor wrapped |
| DelayLine.TapReadsHistory | Source/PluginProcessor.cpp:194-216 | the tap `k` behind the last write reads the `k`-th most recent sample |
| DelayLine.TapAfterWrite | Source/PluginProcessor.cpp:194-216 | the same read, seen from the cursor before the last write, as the sample loop reads |
| DelayLine.DelayLength | Source/PluginProcessor.cpp:204 | the delay is depth times line length times modulation; depth 0 gives delay 0 |
| DelayLine.DelayLengthWithinLine | Source/PluginProcessor.cpp:204 | whenever depth and modulation are in `[0, 1]`, the delay lies in `[0, maxDelay]` |
| DelayLine.ReadLocAsWritten | Source/PluginProcessor.cpp:213 | the source's first read index with C++ `%`: strictly between `-maxDelay` and `maxDelay`, congruent to `writeLoc - floor(delay)`, never positive when its dividend is negative |
| DelayLine.ReadLoc2AsWritten | Source/PluginProcessor.cpp:216 | the source's second read index with C++ `%`: strictly between `-maxDelay` and `maxDelay`, congruent to `writeLoc - floor(delay) - 1`, never positive when its dividend is negative |
| DelayLine.Tap | Source/PluginProcessor.cpp:213-216 | the slot `k` behind `w` is inside the ring and congruent to `w - k` modulo its length |
| DelayLine.FirstTapInRange | Source/PluginProcessor.cpp:213 | the source's first read index is in bounds for every delay floor from 0 to `maxDelay` |
| DelayLine.SecondTapInRangeIff | Source/PluginProcessor.cpp:216 | the source's second read index is in bounds exactly when not both the delay floor equals `maxDelay` and the cursor is 0 |
| DelayLine.SecondTapOutOfBounds | Source/PluginProcessor.cpp:216 | at full depth and full modulation with the cursor at 0, the source's second index is -1 |
| DelayLine.TapsAgreeWithSource | Source/PluginProcessor.cpp:213-216 | wherever the source's second index is in bounds, both source indices equal the wrapped taps at `floor(delay)` and `floor(delay) + 1` |
| DelayLine.ShortDelayInRange | Source/PluginProcessor.cpp:213-216 | a delay below `maxDelay` keeps both source indices in bounds and equal to the wrapped taps |
| DelayLine.SecondTapOneBehind | Source/PluginProcessor.cpp:213-216 | the second tap is the slot before the first, wrapping at 0 |
| DelayLine.SourceTapsAdjacent | Source/PluginProcessor.cpp:213-216 | when both source indices are in bounds the second is the first minus one modulo the line length |
| FlangerSpec.Increment | Source/PluginProcessor.cpp:180-198 | the per-sample phase increment times the sample rate is the frequency; it is 0 exactly for frequency 0 |
| FlangerSpec.Scaled | Source/PluginProcessor.cpp:189 | the direct signal is silent when the input or the gain is 0 and equals the input at unity gain |
| FlangerSpec.Lerp | Source/PluginProcessor.cpp:219 | the crossfade is the first tap at `frac` 0, the second at `frac` 1, and a constant where both taps agree |
| FlangerSpec.Delay | Source/PluginProcessor.cpp:197-204 | the delay after advancing the LFO phase is 0 at depth 0 and lies in `[0, maxDelay]` when the depth and the waveform's value are in `[0, 1]` |
| FlangerSpec.Interpolate | Source/PluginProcessor.cpp:207-219 | the fractional read lies between the two taps and equals the first tap at a whole-sample delay |
| FlangerSpec.LerpBetween | Source/PluginProcessor.cpp:219 | a crossfade with weight in `[0, 1]` lies between its end points and is the first at weight 0 |
| FlangerSpec.Next | Source/PluginProcessor.cpp:180-226 | one sample keeps the ring valid with its length, and the new read index is inside the line |
| FlangerSpec.Out | Source/PluginProcessor.cpp:189-223 | every output sample lies in `[-1, 1]` |
| FlangerSpec.Advance | Source/PluginProcessor.cpp:174-228 | a block keeps the ring valid and its length unchanged |
| FlangerSpec.Outs | Source/PluginProcessor.cpp:174-228 | a block yields exactly one output per input sample |
| FlangerSpec.AdvanceConcat | Source/PluginProcessor.cpp:174-228 | processing `xs` then `ys` from the state `xs` left behind ends where processing `xs + ys` at once ends |
| FlangerSpec.OutsConcat | Source/PluginProcessor.cpp:174-228 | the outputs of two consecutive blocks are the outputs of the joined block |
| FlangerSpec.OneMoreSample | Source/PluginProcessor.cpp:174-228 | one more input sample takes one more step and appends one output computed from the state before it |
| FlangerSpec.OutsAt | Source/PluginProcessor.cpp:174-228 | output `i` of a block is `Out` of sample `i` from the state the first `i` samples left |
| FlangerSpec.SampleInBlock | Source/PluginProcessor.cpp:174-228 | iteration `i` of the loop: the state after `i + 1` samples is one step from the state after `i`, and output `i` is computed from the latter |
| FlangerSpec.RunOf | Source/PluginProcessor.cpp:174-228 | a step-by-step pass over any block exists from any valid state |
| FlangerSpec.RunDetermined | Source/PluginProcessor.cpp:174-228 | any step-by-step pass over a block ends in `Advance` and outputs `Outs` |
| FlangerSpec.RunTail | Source/PluginProcessor.cpp:174-228 | a pass without its first sample is a pass over the rest of the block |
| FlangerSpec.OutsWithin | Source/PluginProcessor.cpp:223 | every output sample of a block lies in `[-1, 1]` |
| FlangerSpec.Gained | Source/PluginProcessor.cpp:189 | the gained block has the input's length and sample `i` is `gain * x[i]` |
| FlangerSpec.GainedPrefix | Source/PluginProcessor.cpp:189 | gaining commutes with taking a prefix |
| FlangerSpec.AdvanceWritesGained | Source/PluginProcessor.cpp:189-226 | over a block the delay line receives exactly the gained inputs, in order from the cursor |
| FlangerSpec.AdvanceCursor | Source/PluginProcessor.cpp:226 | over a block of `n` samples the cursor moves `n` places modulo the line length |
| FlangerSpec.AdvancePhases | Source/PluginProcessor.cpp:180-198 | after `n` samples each phase has moved `n` increments |
| FlangerSpec.ZeroDepthDoublesInput | Source/PluginProcessor.cpp:204-223 | at LFO depth 0 every output is the limited `2 * gain * x` |
| FlangerSpec.ZeroDepthOut | Source/PluginProcessor.cpp:204-223 | at LFO depth 0 one output reads back the sample just written |
| FlangerSpec.CenterFrequencyUnused | Source/PluginProcessor.cpp:180-181 | changing `freq` changes no output sample and no state except the unused oscillator phase |
| FlangerSpec.OutIgnoresInc | Source/PluginProcessor.cpp:180-223 | one output does not depend on the oscillator phase or its increment |
| FlangerSpec.IgnoresInc | Source/PluginProcessor.cpp:174-228 | two states differing only in oscillator phase give the same outputs and stay so over a block, whatever the oscillator increment |
| FlangerSpec.ConstantDelayEcho | Source/PluginProcessor.cpp:194-223 | with the LFO frozen at a whole delay `k`, output `n` is the limited sum of the gained inputs `n` and `n - k` |
| FlangerSpec.EchoSlot | Source/PluginProcessor.cpp:194-219 | after sample `n` is written, the tap `k` behind the cursor holds the gained sample `n - k` |
| Processor.Resized | Source/PluginProcessor.cpp:100 | resizing to `n` keeps the first samples and pads with zeros to length `n` |
| Processor.ClearChannel | Source/PluginProcessor.cpp:148 | clearing a channel zeros all its samples and leaves other channels alone |
| Processor.ClearExtraOutputs | Source/PluginProcessor.cpp:147-148 | output channels from the input count up to the output count are zeroed; the rest is untouched |
| Processor.CopyPrevious | Source/PluginProcessor.cpp:229-234 | a channel becomes a copy of the one before it; other channels are untouched |
| Processor.FlangerProcessor.VoiceOf | Source/PluginProcessor.h:87-93 | a prepared processor's line, cursor and phases form a valid ring of `maxDelay` slots |
| Processor.FlangerProcessor.ParamsOf | Source/PluginProcessor.cpp:180-198 | the fields give the loop's per-sample parameters; an increment is 0 exactly when its frequency is |
| Processor.FlangerProcessor.constructor | Source/PluginProcessor.h:80-93 | a new processor has the header's defaults and an empty delay line, and is not yet prepared |
| Processor.FlangerProcessor.SetGain | Source/PluginProcessor.h:66 | sets the gain and nothing else |
| Processor.FlangerProcessor.SetFrequency | Source/PluginProcessor.h:67 | sets the oscillator frequency and nothing else |
| Processor.FlangerProcessor.SetLFOfreq | Source/PluginProcessor.h:68 | sets the LFO frequency and nothing else |
| Processor.FlangerProcessor.SetLFOdepth | Source/PluginProcessor.h:69 | sets the LFO depth and nothing else |
| Processor.FlangerProcessor.PrepareToPlay | Source/PluginProcessor.cpp:94-101 | records the sample rate, resizes the line to `maxDelay` keeping its contents, touches nothing else, and leaves a processor with a valid cursor and non-zero rate ready to process |
| Processor.FlangerProcessor.ProcessSample | Source/PluginProcessor.cpp:180-226 | one sample moves the fields to `Next` of the old state and returns `Out`, within `[-1, 1]`; the line changes only at the old cursor, to the gained input |
| Processor.FlangerProcessor.ProcessAt | Source/PluginProcessor.cpp:174-226 | sample `i` of channel 0 is replaced by step `i`'s output of the pass, the fields move to the pass's next state, no other sample changes |
| Processor.FlangerProcessor.ProcessChannelZero | Source/PluginProcessor.cpp:171-228 | channel 0 becomes `Outs` of its old contents from the old state and lies in `[-1, 1]`, the fields end at `Advance` of it, other channels are untouched |
| Processor.FlangerProcessor.ProcessBlock | Source/PluginProcessor.cpp:135-236 | with an input channel, channel 0 becomes `Outs` of its old contents, every sample of it in `[-1, 1]`, and the state advances over it; without one the state is unchanged; every further input channel equals the channel before it and hence channel 0; output channels without input are zero; all other channels are untouched |

## Left out

- The sine: the LFO waveform is the parameter `wave`, applied to the phase in turns; `sin` itself and the factor `2π` are not computed.
- Floating point: samples, gains and phases are reals; `float`/`double` rounding, denormals and the `static_cast<int>` of a huge `floor(delay)` are not modelled.
- The sine test input commented out at Source/PluginProcessor.cpp:186 is not modelled; the model processes the external input, as the code does.
- JUCE plumbing is not part of this model: the MIDI buffer, the editor, bus layouts, state saving, `releaseResources`, program handling, `ScopedNoDenormals` and the host's threading.
- Processor.FlangerProcessor.ProcessBlock: requires a prepared processor (a line of `maxDelay` samples and a non-zero sample rate); before `prepareToPlay` the source reads an uninitialised `fs` and an empty vector, which has no defined behaviour to model.
- Processor.FlangerProcessor.ProcessBlock: the host buffer is an `array2` with at least as many channels as the input and output counts; the host's guarantee of that is taken as given.
- FlangerSpec.Next: computes the new read index through the wrapped `DelayLine.Tap` rather than the source's C++ `%` index, so the negative index of the finding below is not part of the model; where the source's index is in bounds the two agree (`DelayLine.TapsAgreeWithSource`).
- FlangerSpec.Out: reads both taps through the wrapped `DelayLine.Tap`, so the out-of-bounds read of the finding below is not part of the model; where the source's indices are in bounds the reads agree (`DelayLine.TapsAgreeWithSource`).
- Processor.FlangerProcessor.ProcessSample: reads through the wrapped `DelayLine.Tap` rather than the source's index, so it does not model the out-of-bounds read of the finding below; the two agree wherever the source's index is in bounds (`DelayLine.TapsAgreeWithSource`).
- The delay line is a `seq<real>` field that each sample reassigns, not a vector updated in place; nothing else aliases it in the source.
- `maxDelay` is a constant: the source declares it a mutable `int` but never assigns it.

## Findings

| source | as written | input that shows it | evidently intended | confidence | as-written member | corrected member |
|---|---|---|---|---|---|---|
| Source/PluginProcessor.cpp:216 | `readLoc2 = (writeLoc - floor(delay + 1) + maxDelay) % maxDelay` with C++'s truncating `%` | `depthLFO = 1.0` (the slider's maximum), LFO at its peak so `delay = 1000`, and `writeLoc = 0`: the index is `-1 % 1000 = -1`, read before the start of the vector | the slot one sample further back than `readLoc`, wrapped into `[0, maxDelay)` | not executed | DelayLine.SecondTapOutOfBounds | DelayLine.Tap |
