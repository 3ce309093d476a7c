# Oscillator bank tone generator, modelled in Dafny

`wasmOscBank.c` runs one sine-tone generator per Web Audio worklet node.
Each node owns an `OscillatorState` record (phase, phase increment,
smoothed volume). The host calls `ProcessAudio` once per render block with
the block's target frequency and volume and a set of output buses. The
callback does four things, in order:

1. It takes one one-pole smoothing step of the increment and the volume
   towards their targets.
2. It generates one sample per sample index of every bus, and the phase
   runs on from bus to bus.
3. It writes each sample into every channel of the bus's planar,
   channel-major buffer.
4. It wraps the phase with `fmod(phase, 2*PI)`.

The model has three modules:

- `Dsp` (`dsp.dfy`): the scalar arithmetic.
  - the constants `SAMPLE_RATE` and `PI`, the latter as the literal `3.14159265359`;
  - the declared parameter ranges and defaults;
  - the frequency-to-increment conversion and the smoothing step;
  - the per-sample phase advance (`Advance`, repeated addition as in the loop);
  - C `fmod`, i.e. truncating division whose remainder takes the sign of the dividend;
  - the range invariant of the state.
- `Planar` (`planar.dfy`):
  - a bus (`AudioSampleFrame`) as a datatype over an `array<real>`;
  - the channel-major index `ch * samplesPerChannel + i`;
  - the content of a bus after the fan-out (`Fill`);
  - the run of samples a block writes into each bus (`Tones`, `BusTones`).
- `OscBank` (`osc_bank.dfy`): the class `Oscillator`. Its fields are those of
  `OscillatorState`, and the constructor sets the initial values of
  `connectAudioWorkletProcessor`. `ProcessBlock` is `ProcessAudio` with its
  three nested loops:
  - the bus loop is `RenderBuses`, with `RenderStep` as one pass;
  - the sample loop is `RenderBus`;
  - the channel loop is `WriteChannels`.

  Each method is proved against the sequence functions of `Planar`.

Floats are modelled as reals. `emscripten_math_sin` is a parameter
`sin: real -> real`, so every property holds for any sine implementation.

`ProcessBlock`'s postconditions fix the whole new state from the old state
and the inputs:
- the two smoothed fields;
- the wrapped phase;
- the full content of every bus array.

Nothing else is modified, so two instances in the same state that receive
the same calls produce the same output.

The phase is advanced inside the bus loop (`wasmOscBank.c:130-133`), once
per sample per bus, and is not reset between buses: bus 1 continues the
waveform where bus 0 stopped. The channels of one bus therefore agree at every
sample index, while two buses do not. `TwoBusScenario` states this for two
stereo buses of four samples. The node is created with one output
(`wasmOscBank.c:94-99`), so in that configuration every channel carries the
same samples.

## Model

| member | source | states |
|---|---|---|
| Dsp.Increment | wasmOscBank.c:125 | The target increment `freq * 2 * PI / 48000`: positive for a positive frequency, at most `PI` (half a cycle per sample) up to the Nyquist frequency |
| Dsp.Smooth | wasmOscBank.c:126-127 | One smoothing step: the new distance to the target is exactly 0.95 times the old one, the result lies between the old value and the target, and it equals the target only if the old value already did |
| Dsp.SmoothRepeatError | wasmOscBank.c:126-127 | After `k` blocks with a constant target, the error is `0.95^k` times the initial error (geometric convergence) |
| Dsp.SmoothRepeatConverges | wasmOscBank.c:126-127 | With a constant target the value never overshoots, and after one or more blocks it has strictly moved towards a target it did not start at |
| Dsp.SmoothAllStaysInRange | wasmOscBank.c:126-127 | A value starting in `[lo, hi]` stays in `[lo, hi]` through any sequence of blocks whose targets lie in `[lo, hi]`; with the declared ranges, volume stays in [0, 1] |
| Dsp.Trunc | wasmOscBank.c:140 | Truncation toward zero, as `fmod` uses it: for a non-negative argument the largest integer not above it, for a negative one the smallest not below it |
| Dsp.Fmod | wasmOscBank.c:140 | C `fmod` with a positive period: a non-negative argument lands in `[0, y)`, a negative one in `(-y, 0]`, and a value already in `[0, y)` is unchanged |
| Dsp.FmodWholeCycles | wasmOscBank.c:140 | Wrapping forgets whole cycles: adding `k` periods to a non-negative phase does not change the wrapped phase |
| Dsp.AdvanceLinear | wasmOscBank.c:133 | Advancing the phase `k` times by `inc`, one addition per sample, gives `phase0 + k * inc` |
| Dsp.AdvanceAdd | wasmOscBank.c:130-133 | Advancing `a` times and then `b` times is advancing `a + b` times: the phase carries over from one bus to the next |
| Dsp.AdvanceFromStart | wasmOscBank.c:133 | With a non-negative increment the phase never decreases during a block |
| Dsp.BlockKeepsStateInRange | wasmOscBank.c:125-140 | For targets in the declared ranges (20..20000 Hz, 0..1), a block keeps the state in range: phase in `[0, 2*PI)`, increment between those of 20 Hz and 20000 Hz, volume in [0, 1], whatever the number of samples |
| Planar.IndexInjective | wasmOscBank.c:135 | Two in-range (channel, sample) pairs map to the same buffer index exactly when they are the same pair |
| Planar.IndexCovers | wasmOscBank.c:134-135 | Every index below `C * S` is `ch * S + i` for some channel `ch < C` and sample `i < S`: the loops reach every cell of the planar region |
| Planar.FanOutAt | wasmOscBank.c:134-135 | In the broadcast of a mono signal to `C` channels, cell `ch * S + i` holds sample `i` |
| Planar.FillAt | wasmOscBank.c:134-135 | After the fan-out, every channel of the bus holds sample `i` at sample index `i`, so all channels at one index agree |
| Planar.FillKeepsTail | wasmOscBank.c:131-135 | The fan-out leaves every cell at or beyond `C * S` as it was |
| Planar.FillOverwritesRegion | wasmOscBank.c:131-135 | Every cell below `C * S` is overwritten with sample `j mod S`: the whole planar region is replaced |
| Planar.FillCharacterized | wasmOscBank.c:131-136 | Any buffer that holds sample `i` in every channel slot `ch * S + i` and keeps the tail is exactly the fan-out result |
| Planar.TonesAtPhase | wasmOscBank.c:132-135 | Sample `m` of a run that starts with the block's `first`-th sample is `sin(phase0 + (first + m) * inc) * volume` |
| Planar.TonesShift | wasmOscBank.c:130-133 | A run started after `first` advances equals the run started from the phase reached by those advances: a bus only sees the phase left by the buses before it |
| Planar.SamplePositionsOrdered | wasmOscBank.c:130-133 | The samples of an earlier bus all come before those of a later bus in the block's sample numbering |
| Planar.BusSampleAt | wasmOscBank.c:130-135 | Sample `i` of bus `o` is `sin(phase0 + (S_0 + ... + S_(o-1) + i) * inc) * volume` |
| Planar.BusStreamContinuous | wasmOscBank.c:130-133 | Read bus after bus, the samples of a block form one uninterrupted run from the block's start phase |
| OscBank.Oscillator.constructor | wasmOscBank.c:89-92 | A fresh instance has phase 0, the increment of 440 Hz and volume 0.3, and this state lies within the ranges |
| OscBank.Oscillator.ProcessBlock | wasmOscBank.c:115-142 | The increment and volume take one smoothing step before any sample. Every bus is filled in all channels with its run of samples, all at the same increment and volume. The phase ends as `fmod` of the start phase advanced once per sample of every bus. A non-negative phase ends in `[0, 2*PI)`. A state in range stays in range for targets in range. The result is always true |
| OscBank.Oscillator.RenderBuses | wasmOscBank.c:130-138 | The bus loop fills bus `o` with the run that starts after the samples of buses `0 .. o-1`, and ends with the phase advanced once per sample of every bus |
| OscBank.Oscillator.RenderStep | wasmOscBank.c:130-138 | One pass of the bus loop renders bus `o` and keeps the buses before it rendered and the buses after it untouched |
| OscBank.Oscillator.RenderBus | wasmOscBank.c:131-137 | The sample loop reads the phase before each advance, writes `sin(phase) * volume` to every channel, and leaves the phase advanced once per sample |
| OscBank.WriteChannels | wasmOscBank.c:134-136 | The channel loop writes the value to sample `i` of every channel and changes no other cell of the bus |
| OscBank.DefaultMonoBlock | wasmOscBank.c:130-136 | Four samples of any tone started at phase 0, on a mono bus of four cells, are the sines of 0, 1, 2 and 3 increments, scaled by the volume |
| OscBank.StereoBlock | wasmOscBank.c:134-136 | On a stereo bus of four samples both channels hold the same value at every sample index, and the first and last samples are the sines of the run's first and fourth phases |
| OscBank.DefaultBlockScenario | wasmOscBank.c:115-142 | A fresh instance driven at its defaults for one mono block of four samples writes `sin(k * inc) * 0.3` for k = 0..3, and the phase ends at four increments |
| OscBank.TwoBusScenario | wasmOscBank.c:130-138 | With two stereo buses of four samples, the two channels of each bus agree at every sample index, and the second bus starts at four increments where the first starts at zero |

## Left out

- Worklet bootstrap and node creation (`wasmOscBank.c:30-83`, `94-111`): calls into the Emscripten Web Audio runtime, parameter descriptors as data and `printf` output. The declared ranges and defaults (`wasmOscBank.c:51-60`) are kept as constants.
- The worklet thread stack `wasmAudioWorkletStack` (`wasmOscBank.c:17`): a runtime resource with no logic.
- `malloc` and the `userData` casts (`wasmOscBank.c:89`, `120`): the state is a Dafny object, and allocation failure is not modelled.
- Parameter extraction (`wasmOscBank.c:121-122`): the targets are plain arguments. Each stands for the first value of its parameter array; the host's clamping is a hypothesis of the range results, not a precondition of `ProcessBlock`.
- 32-bit floating point: all arithmetic is on reals. `0.95f` and `0.05f` are taken as exact, and rounding, accumulated error in the repeated phase addition, and `float` overflow are not modelled.
- `emscripten_math_sin`: a foreign call, passed as the parameter `sin`; its accuracy is not modelled.
- `emscripten_math_fmod`: modelled as exact C `fmod` on reals, through truncating division.
- C `int` loop counters and the product `ch * samplesPerChannel`: counts are unbounded naturals, so integer overflow is not modelled.
- OscBank.Oscillator.ProcessBlock: requires the buses to have pairwise distinct storage arrays, each large enough for its planar region. Buses that share storage, where a later bus overwrites an earlier one, are not modelled.
- `server.py`: a static HTTP server that adds cross-origin isolation headers; it has no logic to model.
