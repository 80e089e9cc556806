# soundcard-generator tone synthesis, modelled in Dafny

`soundcard-generator` is a stereo multi-tone generator. The left and right
channels each get a waveform (`sine`, `square` or `triangle`) and a list of
oscillators, written as `freq:phase:duty:amp` tuples. It fills an interleaved
buffer of 2 × 4096 signed 16-bit samples again and again and sends it to the
sound card. This project models the configuration decoding and one fill of
that buffer, and proves what the code promises about them.

The model has four modules:

- `Numerics` (`numerics.dfy`) holds the basic types.
  - `PI` is the exact value of the `f64` constant `std::f64::consts::PI`.
  - `i16` is the sample type.
  - `ToI16` is Rust's `as i16` cast from a float: it truncates toward zero
    and saturates at the type's bounds.
  - `Complex` and `Mul` model `num_complex` multiplication without rounding.
- `Config` (`config.dfy`) decodes the configuration.
  - `Waveform`, `Sigparam`, `sigtypedec` (`SigTypeDec`) and `sigstrdec`
    (`SigStrDec`, a method with the source's loop, proved against the
    function `DecodeSignals`).
  - Rust's panics and `exit(1)` become the `Err` cases of a `Result`.
  - The arity messages become the list of field counts that were printed.
- `Oscillator` (`oscillator.dfy`) models one oscillator.
  - `PhaseStep` is the phase step.
  - `Advance` is the `phase += step` followed by the one-turn wrap, and
    `PhaseAfter` repeats it `n` times.
  - `SquareValue` and `TriangleValue` evaluate the square and triangle.
  - `RotorAfter` is the sine rotor multiplied by its per-sample rotation.
- `Generator` (`generator.dfy`) models the synthesis loop.
  - `Precompute` is the loop over the oscillators before synthesis.
  - The class `OscillatorBank` holds the live phases and rotors as arrays that
    its methods update in place.
  - Its fill methods have the source's nested loops and write an
    `array<i16>`.
  - Every fill method is proved against a pure stream:
    - `ChannelSamples` gives sample `f` of a channel as the cast sum of its
      oscillators' contributions at their state `f` samples on.
    - `Channel` reads one channel (slot 0 even, slot 1 odd) out of the
      interleaved buffer.

Reals stand in for `f64`. Every formula is therefore exact. Rounding,
infinities and NaN are not modelled.

Three behaviours of the code worth stating:

- **The cast saturates.** The narrowing `signal as i16` is Rust's
  float-to-integer `as`, which truncates toward zero and saturates at the
  `i16` bounds. `ToI16` models that. `NoClipping` and `StreamNoClipping` show
  when the cast only cuts off the fraction.
- **Wrong arity is not fatal.** A token with the wrong number of fields only
  prints a diagnostic, and decoding goes on:
  - more than four fields are accepted, using the first four;
  - fewer than four fail when a missing field is indexed, or earlier, when
    a field that is present fails to parse.
- **A start phase outside [0°, 360°) overshoots the triangle.** Decoding
  accepts any angle. The wrap keeps a negative phase negative until it
  passes zero, and moves a phase by one turn per sample at most. A start of
  360° or more in either direction begins outside (-2π, 2π), and from 720°
  on it is still outside after the first sample: `PhaseAfterInRange` and
  `AdvancedInRange` assume a start inside. The triangle formula assumes
  a phase in [0, 2π): for `440:-90:50:A` the first sample is `-2A`
  (`NegativeStartBelowTrough`) and for `440:720:50:A` it is `-5A`
  (`WideStartOutsideTurn`), so a triangle channel can saturate even though
  its amplitudes add up to at most 32767.

## Model

| member | source | states |
|---|---|---|
| Numerics.ToI16 | soundcard-generator/src/main.rs:133 | `signal as i16` cuts the fraction off toward zero and saturates at -32768 and 32767 instead of wrapping. |
| Numerics.ToI16Whole | soundcard-generator/src/main.rs:133 | A whole number inside the 16-bit range passes through the cast unchanged. |
| Numerics.ToI16Monotone | soundcard-generator/src/main.rs:152 | The cast preserves order, so a larger channel sum never gives a smaller sample. |
| Numerics.Mul | soundcard-generator/src/main.rs:131 | `phvec[i] *= ph_diffvec[i]` without rounding. No ensures of its own; `NormSqMul` and `RotorKeepsMagnitude` state that it multiplies magnitudes, and `RotorAfterCompose` that repeated turns compose. |
| Numerics.NormSqMul | soundcard-generator/src/main.rs:131 | Complex multiplication multiplies squared magnitudes. |
| Numerics.UnitRealPart | soundcard-generator/src/main.rs:130 | A rotor on the unit circle has its real part in [-1, 1]. |
| Config.SigTypeDec | soundcard-generator/src/main.rs:41-47 | The result is `Nowave` exactly when the label is none of "sine", "square" and "triangle". |
| Config.SigTypeDecLabel | soundcard-generator/src/main.rs:41-47 | Each audible waveform is selected by its own label and by no other string. |
| Config.Split | soundcard-generator/src/main.rs:55-56 | `str::split` with one character gives at least one piece, and no piece contains the separator. |
| Config.JoinSplit | soundcard-generator/src/main.rs:55-56 | Joining the pieces with the separator gives the input back, so splitting loses no character. |
| Config.Field | soundcard-generator/src/main.rs:62-65 | Field `k` decodes exactly when it exists and parses, to the parsed number. An index past the end is `MissingField`. |
| Config.DecodeFields | soundcard-generator/src/main.rs:56-75 | A returned descriptor is in range. It comes from four parsed fields: frequency as given, phase as deg/180·π, duty threshold as pct/100·2π, amplitude as given. |
| Config.ExtraFieldsIgnored | soundcard-generator/src/main.rs:56-65 | A token with more than four fields decodes as its first four. |
| Config.TooFewFieldsFail | soundcard-generator/src/main.rs:56-65 | A token with fewer than four fields never gives a descriptor. It fails on a parse or a missing field, never on a range check. |
| Config.DecodeFieldsNumbers | soundcard-generator/src/main.rs:61-75 | Given four numbers, the frequency check comes first, then the amplitude check, then the converted descriptor. |
| Config.ArityDiagnostic | soundcard-generator/src/main.rs:57-59 | A diagnostic is printed exactly when the field count is not 4, and it reports that count. |
| Config.DecodeTokens | soundcard-generator/src/main.rs:55-77 | The `for` loop over the tokens, stopping at the first failure. No ensures of its own; `DecodeTokensOk`, `DecodeTokensInOrder`, `DecodeTokensQuiet`, `DiagnosticsAreArityErrors`, `DecodedInRange`, `FailureStops` and `RejectedTokenRejectsList` state what it returns. |
| Config.FailureStops | soundcard-generator/src/main.rs:67-74 | After the first failing token, the later tokens change nothing: the process has stopped. |
| Config.DecodeTokensOk | soundcard-generator/src/main.rs:55-77 | A list decodes if and only if every one of its tokens decodes. |
| Config.DecodeTokensInOrder | soundcard-generator/src/main.rs:55-77 | A decoded list has one descriptor per token, in order, and descriptor `k` is what token `k` decodes to. |
| Config.DecodeTokensQuiet | soundcard-generator/src/main.rs:57-59 | A decoded list printed no diagnostic if and only if every token had exactly four fields. |
| Config.DiagnosticsAreArityErrors | soundcard-generator/src/main.rs:57-59 | Every diagnostic reports a field count other than four. |
| Config.DecodedInRange | soundcard-generator/src/main.rs:67-75 | Every returned descriptor has frequency in [0, 24000] and amplitude in [0, 32767]. |
| Config.RejectedTokenRejectsList | soundcard-generator/src/main.rs:67-75 | A single out-of-range or malformed token makes the whole list fail. |
| Config.SigStrDec | soundcard-generator/src/main.rs:50-78 | The loop computes `DecodeSignals`: the empty string gives an empty list with no diagnostics; otherwise the tokens are decoded in turn, stopping at the first failure. |
| Oscillator.PhaseStep | soundcard-generator/src/main.rs:119 | For a frequency in [0, 24000] the step at 48000 Hz lies in [0, π]. Frequency 0 gives step 0. |
| Oscillator.Wrap | soundcard-generator/src/main.rs:146-150 | The two-sided wrap. No ensures of its own; `Advance` states that it moves the phase by one turn at most and keeps (-2π, 2π) and [0, 2π), and `PhaseAfterInRange`, `PhaseAfterNonNegative` and `PhaseAfterWholeTurns` carry that over every sample. |
| Oscillator.Advance | soundcard-generator/src/main.rs:145-150 | The wrapped phase is `p + step` less one turn, plus one turn, or unchanged. It stays in (-2π, 2π), or in [0, 2π), for a step in [0, 2π). |
| Oscillator.PhaseAfterInRange | soundcard-generator/src/main.rs:145-150 | Wrap invariant: a phase starting in (-2π, 2π) is in (-2π, 2π) after any number of samples. |
| Oscillator.PhaseAfterNonNegative | soundcard-generator/src/main.rs:145-150 | A phase starting in [0, 2π) stays in [0, 2π). |
| Oscillator.PhaseAfterCompose | soundcard-generator/src/main.rs:137-151 | Advancing `m` samples and then `n` more equals advancing `m + n` samples. |
| Oscillator.PhaseAfterWholeTurns | soundcard-generator/src/main.rs:145-150 | The wrapped phase differs from the unwrapped `p + n·step` by a whole number of turns, so the wrap never shifts the waveform. |
| Oscillator.FirstTurnUnwrapped | soundcard-generator/src/main.rs:145-150 | Until the unwrapped phase reaches 2π no wrap happens, so the phase equals `p + n·step`. |
| Oscillator.SquareValue | soundcard-generator/src/main.rs:140-144 | A square contribution is `+A` or `-A`, and for a non-zero amplitude it is `+A` exactly when the phase is below the duty threshold. |
| Oscillator.SquareHighBeforeThreshold | soundcard-generator/src/main.rs:140-144 | In the first turn the square is +A exactly when the unwrapped phase is below the duty threshold, and -A exactly when it is not. |
| Oscillator.TriangleRise | soundcard-generator/src/main.rs:159-160 | The rising ramp. No ensures of its own; `TriangleCorners` and `TriangleMonotone` state that it climbs from `-A` at 0 to `+A` at the threshold. |
| Oscillator.TriangleFall | soundcard-generator/src/main.rs:161-162 | The falling ramp, subtracted. No ensures of its own; `TriangleCorners` and `TriangleMonotone` state that it falls from `+A` at the threshold to `-A` at 2π. |
| Oscillator.TriangleValue | soundcard-generator/src/main.rs:159-163 | The branch on the threshold. No ensures of its own; `TriangleCorners`, `TriangleBounded` and `TriangleMonotone` state its shape, and `NegativeStartBelowTrough` and `WideStartOutsideTurn` what it gives outside [0, 2π). |
| Oscillator.TriangleCorners | soundcard-generator/src/main.rs:159-163 | The triangle is -A at phase 0 and +A at the threshold, where both ramps meet. The falling ramp ends at 2π on the value phase 0 starts from. |
| Oscillator.TriangleBounded | soundcard-generator/src/main.rs:159-163 | Over one turn the triangle stays within [-A, A]. |
| Oscillator.TriangleMonotone | soundcard-generator/src/main.rs:159-163 | The triangle never decreases below the threshold and never increases from it to the end of the turn. |
| Oscillator.SineValue | soundcard-generator/src/main.rs:130 | A sine contribution from a unit rotor lies within [-A, A]. |
| Oscillator.RotorAfterCompose | soundcard-generator/src/main.rs:127-132 | Rotating `m` samples and then `n` more equals rotating `m + n` samples. |
| Oscillator.RotorKeepsMagnitude | soundcard-generator/src/main.rs:131 | Without rounding, a unit rotation keeps the rotor's magnitude after any number of samples. |
| Oscillator.RotorIsPhase | soundcard-generator/src/main.rs:117-121 | If `cis` turns sums of angles into products, the rotor after `n` samples is `cis(phase + π/2 + n·step)`, a phase accumulator without a wrap. |
| Generator.ChannelAt | soundcard-generator/src/main.rs:133 | Frame `f` of the channel in slot `s` is buffer entry `2f + s`: even entries left, odd entries right. |
| Generator.ChannelUnchanged | soundcard-generator/src/main.rs:188 | A channel depends only on the buffer entries of its own parity. |
| Generator.ChannelWrite | soundcard-generator/src/main.rs:152 | Writing `buf[2*idx + slot]` extends that channel by the written sample. |
| Generator.ChannelWriteOther | soundcard-generator/src/main.rs:207 | Writing one channel's entry leaves the other channel unchanged. |
| Generator.ChannelsDetermineBuffer | soundcard-generator/src/main.rs:112 | The two channels make up the whole 2 × 4096 buffer: buffers with equal channels are equal. |
| Generator.Contribution | soundcard-generator/src/main.rs:129-130 | One oscillator's term in the inner loops (also 140-144 and 159-163), chosen by the channel's waveform. No ensures of its own; `ContributionBounded` bounds it. |
| Generator.ChannelSum | soundcard-generator/src/main.rs:138-163 | `signal` after the inner loop, the contributions added in index order. No ensures of its own; `SilentChannel`, `Superposition`, `ChannelSumLocal`, `ChannelSumBounded` and `NoClipping` state its properties. |
| Generator.SilentChannel | soundcard-generator/src/main.rs:174-178 | A `Nowave` channel sums to zero whatever its oscillators are. |
| Generator.Superposition | soundcard-generator/src/main.rs:137-151 | A channel's sum is the sum over any split of its oscillator range. |
| Generator.ChannelSumLocal | soundcard-generator/src/main.rs:194 | A channel's sum depends only on the contributions of its own range of oscillators. |
| Generator.ContributionBounded | soundcard-generator/src/main.rs:138-170 | Every contribution lies within its amplitude: always for a square, over one turn for a triangle, and on the unit circle for a sine. |
| Generator.ChannelSumBounded | soundcard-generator/src/main.rs:137-153 | A channel's sum lies within the sum of its amplitudes. |
| Generator.NoClipping | soundcard-generator/src/main.rs:152 | When every oscillator's contribution lies within its own amplitude and the amplitudes add up to at most 32767, the sample is the sum with only its fraction cut off, never saturated. |
| Generator.StreamNoClipping | soundcard-generator/src/main.rs:116-153 | For oscillators starting at a phase in [0, 2π), with in-range frequencies, triangle thresholds inside the turn and unit sine rotors, every sample of a channel whose amplitudes add up to at most 32767 is the sum with only its fraction cut off. |
| Generator.NegativeStartBelowTrough | soundcard-generator/src/main.rs:61-66 | The tuple `440:-90:50:A` decodes to a start phase in (−2π, 0), where the triangle formula gives `-2A`, below the trough `-A`. |
| Generator.WideStartOutsideTurn | soundcard-generator/src/main.rs:61-66 | The tuple `440:720:50:A` decodes to a start phase of at least 2π, the phase is still at or above 2π one sample on, and the triangle formula gives `-5A` at the start phase. |
| Generator.AdvancedInRange | soundcard-generator/src/main.rs:145-150 | After a whole fill every phase is still inside (-2π, 2π), given steps in [0, π]. |
| Generator.FrameContinues | soundcard-generator/src/main.rs:137-153 | Sample `f` after `m` samples of a channel is sample `m + f` counted from the start. |
| Generator.ChannelSamplesAt | soundcard-generator/src/main.rs:137-153 | Sample `f` of a channel's stream is the cast sum of its oscillators at their state `f` samples on. |
| Generator.SilentSamples | soundcard-generator/src/main.rs:174-178 | Every sample of a `Nowave` channel is 0. |
| Generator.ChannelSamplesLocal | soundcard-generator/src/main.rs:184 | A channel's stream depends only on the phases and rotors of its own oscillators. |
| Generator.OtherChannelUnaffected | soundcard-generator/src/main.rs:180-234 | A fill of one channel does not change the stream of a channel over a disjoint oscillator range. |
| Generator.StreamContinues | soundcard-generator/src/main.rs:124-234 | The stream has no seams: the samples a channel writes after `m` samples are samples `m` to `m + n` of its stream from the start. |
| Generator.SampleContinues | soundcard-generator/src/main.rs:124-234 | Element `j` of the stream after `m` samples is element `m + j` of the stream from the start. |
| Generator.Precompute | soundcard-generator/src/main.rs:116-122 | Each oscillator gets step `PhaseStep(freq)`, a rotor `cis(phase + π/2)` and rotation `cis(step)`. With every descriptor in range, every step is in [0, π]. |
| Generator.OscillatorBank.constructor | soundcard-generator/src/main.rs:101-122 | The bank holds the left signals followed by the right ones, each at its configured phase, with the precomputed steps, rotors and rotations. |
| Generator.OscillatorBank.AdvancePhase | soundcard-generator/src/main.rs:145-150 | One oscillator's phase becomes `Advance(phase, step)` in place, and every other phase is unchanged. |
| Generator.OscillatorBank.ShapedTerm | soundcard-generator/src/main.rs:140-163 | The branch added to `signal` for one square or triangle oscillator is its `Contribution` at the current phase. |
| Generator.OscillatorBank.ShapedSum | soundcard-generator/src/main.rs:138-151 | The inner loop computes the channel sum at the old phases. It advances exactly the oscillators in `[lo, hi)`. |
| Generator.OscillatorBank.ShapedSample | soundcard-generator/src/main.rs:138-152 | After `idx` samples from `ph0`, the sample computed is stream sample `idx` and the phases move one more sample. |
| Generator.OscillatorBank.ShapedFrame | soundcard-generator/src/main.rs:137-153 | One frame of a square or triangle channel extends its slot by the next stream sample, leaves the slot's later frames and the other slot as they were. |
| Generator.OscillatorBank.FillShaped | soundcard-generator/src/main.rs:136-173 | A square or triangle fill writes the channel's first 4096 stream samples into its slot and leaves the other slot alone. It advances only `[lo, hi)`, by 4096 samples. |
| Generator.OscillatorBank.SineSum | soundcard-generator/src/main.rs:128-132 | The sine inner loop sums rotor real part times amplitude at the old rotors. It turns exactly the rotors in `[lo, hi)` once. |
| Generator.OscillatorBank.SineSample | soundcard-generator/src/main.rs:128-133 | After `idx` turns from `r0`, the sample computed is stream sample `idx` and the rotors turn once more. |
| Generator.OscillatorBank.SineFrame | soundcard-generator/src/main.rs:127-134 | One frame of a sine channel extends its slot by the next stream sample, leaves the slot's later frames and the other slot as they were. |
| Generator.OscillatorBank.FillSine | soundcard-generator/src/main.rs:126-135 | A sine fill writes the channel's first 4096 stream samples into its slot and leaves the other slot alone. It turns only `[lo, hi)`. |
| Generator.OscillatorBank.FillSilent | soundcard-generator/src/main.rs:174-178 | A `Nowave` fill writes 0 into every frame of its slot. It touches no oscillator and leaves the other slot alone. |
| Generator.OscillatorBank.FillChannel | soundcard-generator/src/main.rs:125-179 | A fill of any waveform writes the channel's stream into its slot. Phases move only for square and triangle, rotors only for sine, and only in `[lo, hi)`. |
| Generator.OscillatorBank.FillBuffer | soundcard-generator/src/main.rs:124-234 | The even slots hold the left stream over `[0, leftsiglen)` and the odd slots the right stream over `[leftsiglen, len)`. Both streams start from the state before the fill. The final state is the left fill followed by the right. |

## Left out

- ALSA device I/O is not modelled. That covers `sound_init`, `PCM::new`, and `io.writei` with its assertion on the written frame count (main.rs lines 9-25, 108-109 and 235).
- Command-line parsing with `argparse` (main.rs lines 83-97) is not modelled; the labels and signal strings are parameters. The `--verbose` flag is parsed but never read.
- The endless `loop` (main.rs line 124) is not modelled as a loop; `FillBuffer` models one pass of its body. `StreamContinues` and `FrameContinues` show that consecutive buffers continue one channel's stream, and `OtherChannelUnaffected` that the other channel's fill in between does not change it.
- `str::parse::<f64>` is the parameter `parse: string -> Option<real>`. Inputs such as `inf` and `NaN`, which Rust's parser accepts, fall outside the model because `real` has no such values.
- `(Complex::i() * x).exp()` is the parameter `cis: real -> Complex`. The rotor multiplication itself is modelled exactly.
- `f64` rounding, infinities and NaN are not modelled, because reals stand in for `f64`.
- Config.DecodedInRange: the bounds hold for the finite values the abstract `parse` returns. In the source a field that parses to NaN passes both range checks, because every comparison with NaN is false, so `sigstrdec` can return a NaN frequency or amplitude; reals have no NaN.
- The text of the diagnostics is not modelled. `sigstrdec`'s arity message is recorded as the field count it prints. `sigtypedec`'s warning is not recorded: it is printed exactly when the result is `Nowave`, which `SigTypeDec`'s ensures already characterise, and its text depends only on the channel name `ch`.
- The program keeps the live phase in `sig[i].phase` itself. The model keeps it in `OscillatorBank.phase`, and the bank's `sigs` keeps the decoded starting phase; both are read and written in the same order.
- The buffer's initial zeros (main.rs line 112) are not assumed. `FillBuffer` works on any buffer, and `ChannelsDetermineBuffer` shows its two channels fix the whole result.
- `spectrumanalyzer-1ch.py` and `oscilloscope-1ch.py` are not part of this model; they are GUI, serial and FFT display code.
- Oscillator.TriangleValue: requires the duty threshold to differ from 0 and 2π at every phase, for the same reason as `FillBuffer` below; the source divides by the threshold only for a phase below it, and by `2π - d` only for a phase at or above it.
- Generator.Contribution: requires the same triangle thresholds as `TriangleValue`, for the same reason.
- Generator.ChannelSum: requires, through `Evaluable`, the same triangle thresholds as `TriangleValue`, for the same reason.
- Generator.OscillatorBank.FillBuffer: requires a triangle channel's duty thresholds to differ from 0 and 2π (duty 0% or 100%). At those values the source's formula can divide by zero in `f64`, which reals cannot express. It does so only on the branch taken: at 0% only for a phase below zero, at 100% only for a phase of 2π or more; the model excludes both thresholds outright, so a 0% triangle with a non-negative start phase (a falling sawtooth) is not covered.
- Generator.OscillatorBank.FillChannel: requires the same triangle thresholds as `FillBuffer`, for the same reason.
- Generator.OscillatorBank.FillShaped: requires the same triangle thresholds as `FillBuffer`, for the same reason.
- Generator.OscillatorBank.ShapedFrame: requires the same triangle thresholds as `FillBuffer`, for the same reason.
- Generator.OscillatorBank.ShapedSample: requires the same triangle thresholds as `FillBuffer`, for the same reason.
- Generator.OscillatorBank.ShapedSum: requires the same triangle thresholds as `FillBuffer`, for the same reason.
- Generator.OscillatorBank.ShapedTerm: requires the same triangle thresholds as `FillBuffer`, for the same reason.
