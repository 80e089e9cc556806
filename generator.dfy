/**
 * The synthesis loop of the tone generator: the per-oscillator precompute,
 * the oscillator bank whose phases and rotors advance in place, and one fill
 * of the interleaved stereo buffer, the left channel on the even slots from
 * the left oscillators and the right channel on the odd slots from the rest.
 */
module Generator {
  import opened Numerics
  import opened Config
  import opened Oscillator

  /** Stereo frames per buffer: half of the `2*4096` samples of `buf`. */
  const Frames: nat := 4096

  /** Samples per buffer, left and right interleaved. */
  const BufferLength: nat := 2 * Frames

  /** Where frame `f` of the channel in slot `slot` (0 left, 1 right) lives in the buffer. */
  function Interleaved(f: nat, slot: nat): nat
  {
    2 * f + slot
  }

  /** The first `n` samples of the channel in slot `slot` of an interleaved buffer. */
  function Channel(b: seq<i16>, slot: nat, n: nat): (c: seq<i16>)
    requires slot < 2 && 2 * n <= |b|
    ensures |c| == n
  {
    if n == 0 then [] else Channel(b, slot, n - 1) + [b[Interleaved(n - 1, slot)]]
  }

  /** Frame `f` of a channel is the buffer entry at that frame's place for the channel. */
  lemma {:induction false} ChannelAt(b: seq<i16>, slot: nat, n: nat, f: nat)
    requires slot < 2 && 2 * n <= |b| && f < n
    ensures Channel(b, slot, n)[f] == b[Interleaved(f, slot)]
  {
    if f < n - 1 {
      ChannelAt(b, slot, n - 1, f);
    }
  }

  /** A channel reads only its own entries: buffers that agree there have the same channel. */
  lemma {:induction false} ChannelUnchanged(b: seq<i16>, b': seq<i16>, slot: nat, n: nat)
    requires slot < 2 && 2 * n <= |b| && |b'| == |b|
    requires forall f :: 0 <= f < n ==> b[Interleaved(f, slot)] == b'[Interleaved(f, slot)]
    ensures Channel(b, slot, n) == Channel(b', slot, n)
  {
    if n > 0 {
      ChannelUnchanged(b, b', slot, n - 1);
    }
  }

  /** Writing frame `n` of a channel extends that channel by the written sample. */
  lemma ChannelWrite(b: seq<i16>, slot: nat, n: nat, v: i16)
    requires slot < 2 && 2 * (n + 1) <= |b|
    ensures Channel(b[Interleaved(n, slot) := v], slot, n + 1) == Channel(b, slot, n) + [v]
  {
    ChannelUnchanged(b, b[Interleaved(n, slot) := v], slot, n);
  }

  /** Writing a sample of one channel leaves the other channel as it was. */
  lemma ChannelWriteOther(b: seq<i16>, slot: nat, other: nat, k: nat, n: nat, v: i16)
    requires slot < 2 && other < 2 && slot != other && Interleaved(k, slot) < |b| && 2 * n <= |b|
    ensures Channel(b[Interleaved(k, slot) := v], other, n) == Channel(b, other, n)
  {
    ChannelUnchanged(b, b[Interleaved(k, slot) := v], other, n);
  }

  /** The two channels make up the whole buffer: buffers with the same channels are the same buffer. */
  lemma ChannelsDetermineBuffer(b: seq<i16>, b': seq<i16>)
    requires |b| == BufferLength && |b'| == BufferLength
    requires Channel(b, 0, Frames) == Channel(b', 0, Frames) && Channel(b, 1, Frames) == Channel(b', 1, Frames)
    ensures b == b'
  {
    forall j | 0 <= j < BufferLength
      ensures b[j] == b'[j]
    {
      var f, slot := j / 2, j % 2;
      assert Interleaved(f, slot) == j && f < Frames;
      ChannelAt(b, slot, Frames, f);
      ChannelAt(b', slot, Frames, f);
    }
  }

  // ---------------------------------------------------------------------------
  // Specification of one channel's samples

  /** Every oscillator's phase `n` samples on. */
  function PhasesAt(ph: seq<real>, steps: seq<real>, n: nat): (r: seq<real>)
    requires |steps| == |ph|
    ensures |r| == |ph|
    ensures forall i :: 0 <= i < |ph| ==> r[i] == PhaseAfter(ph[i], steps[i], n)
  {
    seq(|ph|, i requires 0 <= i < |ph| => PhaseAfter(ph[i], steps[i], n))
  }

  /** Every oscillator's rotor `n` samples on. */
  function RotorsAt(rs: seq<Complex>, diffs: seq<Complex>, n: nat): (r: seq<Complex>)
    requires |diffs| == |rs|
    ensures |r| == |rs|
    ensures forall i :: 0 <= i < |rs| ==> r[i] == RotorAfter(rs[i], diffs[i], n)
  {
    seq(|rs|, i requires 0 <= i < |rs| => RotorAfter(rs[i], diffs[i], n))
  }

  /** The oscillators `[lo, hi)` of a channel can be evaluated under `kind`. */
  predicate Evaluable(kind: Waveform, sigs: seq<Sigparam>, lo: nat, hi: nat)
  {
    && lo <= hi <= |sigs|
    && (kind == Triangle ==> forall i :: lo <= i < hi ==> TriangleDefined(sigs[i].dutyCyclePhase))
  }

  /** One oscillator's contribution to its channel's sample under the channel's waveform. */
  function Contribution(kind: Waveform, theta: real, rotor: Complex, s: Sigparam): real
    requires kind == Triangle ==> TriangleDefined(s.dutyCyclePhase)
  {
    match kind
    case Sine => SineValue(rotor, s.amplitude)
    case Square => SquareValue(theta, s.dutyCyclePhase, s.amplitude)
    case Triangle => TriangleValue(theta, s.dutyCyclePhase, s.amplitude)
    case Nowave => 0.0
  }

  /** The channel's sample before the cast: the contributions of oscillators `[lo, hi)`, added in index order. */
  function ChannelSum(kind: Waveform, P: seq<real>, R: seq<Complex>, sigs: seq<Sigparam>, lo: nat, hi: nat): real
    requires |P| == |sigs| && |R| == |sigs| && Evaluable(kind, sigs, lo, hi)
    decreases hi - lo
  {
    if hi == lo then 0.0
    else ChannelSum(kind, P, R, sigs, lo, hi - 1) + Contribution(kind, P[hi - 1], R[hi - 1], sigs[hi - 1])
  }

  /** A silent channel sums to zero whatever its oscillators are. */
  lemma {:induction false} SilentChannel(P: seq<real>, R: seq<Complex>, sigs: seq<Sigparam>, lo: nat, hi: nat)
    requires |P| == |sigs| && |R| == |sigs| && lo <= hi <= |sigs|
    ensures ChannelSum(Nowave, P, R, sigs, lo, hi) == 0.0
    decreases hi - lo
  {
    if hi > lo {
      SilentChannel(P, R, sigs, lo, hi - 1);
    }
  }

  /**
   * Superposition: the oscillators of a channel split at any `m` contribute
   * the sum of what the two parts contribute on their own.
   */
  lemma {:induction false} Superposition(kind: Waveform, P: seq<real>, R: seq<Complex>, sigs: seq<Sigparam>, lo: nat, m: nat, hi: nat)
    requires |P| == |sigs| && |R| == |sigs| && Evaluable(kind, sigs, lo, hi) && lo <= m <= hi
    ensures ChannelSum(kind, P, R, sigs, lo, hi) == ChannelSum(kind, P, R, sigs, lo, m) + ChannelSum(kind, P, R, sigs, m, hi)
    decreases hi - m
  {
    if hi > m {
      Superposition(kind, P, R, sigs, lo, m, hi - 1);
    }
  }

  /**
   * No cross-coupling: a channel's sum depends only on its own oscillators'
   * contributions, whatever the state of the others.
   */
  lemma {:induction false} ChannelSumLocal(kind: Waveform, P: seq<real>, R: seq<Complex>, P': seq<real>, R': seq<Complex>, sigs: seq<Sigparam>, lo: nat, hi: nat)
    requires |P| == |sigs| && |R| == |sigs| && |P'| == |sigs| && |R'| == |sigs| && Evaluable(kind, sigs, lo, hi)
    requires forall i :: lo <= i < hi ==> Contribution(kind, P[i], R[i], sigs[i]) == Contribution(kind, P'[i], R'[i], sigs[i])
    ensures ChannelSum(kind, P, R, sigs, lo, hi) == ChannelSum(kind, P', R', sigs, lo, hi)
    decreases hi - lo
  {
    if hi > lo {
      ChannelSumLocal(kind, P, R, P', R', sigs, lo, hi - 1);
    }
  }

  /** The sum of the amplitudes of oscillators `[lo, hi)`. */
  function AmplitudeSum(sigs: seq<Sigparam>, lo: nat, hi: nat): real
    requires lo <= hi <= |sigs|
    decreases hi - lo
  {
    if hi == lo then 0.0 else AmplitudeSum(sigs, lo, hi - 1) + sigs[hi - 1].amplitude
  }

  /**
   * Each contribution is within its amplitude: always for a square, for a
   * triangle over one turn with a threshold inside the turn, for a sine on
   * the unit circle.
   */
  lemma ContributionBounded(kind: Waveform, theta: real, rotor: Complex, s: Sigparam)
    requires 0.0 <= s.amplitude
    requires kind == Triangle ==> 0.0 < s.dutyCyclePhase < TwoPi && 0.0 <= theta < TwoPi
    requires kind == Sine ==> NormSq(rotor) == 1.0
    ensures -s.amplitude <= Contribution(kind, theta, rotor, s) <= s.amplitude
  {
    if kind == Triangle {
      TriangleBounded(theta, s.dutyCyclePhase, s.amplitude);
    }
  }

  /** A channel's sum stays within the sum of its amplitudes when every contribution stays within its own. */
  lemma {:induction false} ChannelSumBounded(kind: Waveform, P: seq<real>, R: seq<Complex>, sigs: seq<Sigparam>, lo: nat, hi: nat)
    requires |P| == |sigs| && |R| == |sigs| && Evaluable(kind, sigs, lo, hi)
    requires forall i :: lo <= i < hi ==>
      -sigs[i].amplitude <= Contribution(kind, P[i], R[i], sigs[i]) <= sigs[i].amplitude
    ensures -AmplitudeSum(sigs, lo, hi) <= ChannelSum(kind, P, R, sigs, lo, hi) <= AmplitudeSum(sigs, lo, hi)
    decreases hi - lo
  {
    if hi > lo {
      ChannelSumBounded(kind, P, R, sigs, lo, hi - 1);
    }
  }

  /**
   * While the amplitudes of a channel add up to at most 32767 the cast never
   * saturates: the sample is the channel sum with its fraction cut off.
   */
  lemma NoClipping(kind: Waveform, P: seq<real>, R: seq<Complex>, sigs: seq<Sigparam>, lo: nat, hi: nat)
    requires |P| == |sigs| && |R| == |sigs| && Evaluable(kind, sigs, lo, hi)
    requires forall i :: lo <= i < hi ==>
      -sigs[i].amplitude <= Contribution(kind, P[i], R[i], sigs[i]) <= sigs[i].amplitude
    requires AmplitudeSum(sigs, lo, hi) <= 32767.0
    ensures -1.0 < ChannelSum(kind, P, R, sigs, lo, hi) - ToI16(ChannelSum(kind, P, R, sigs, lo, hi)) as real < 1.0
  {
    ChannelSumBounded(kind, P, R, sigs, lo, hi);
  }

  /**
   * No clipping over a whole stream, for oscillators that start the way the
   * wrap keeps them: phases in [0, 2pi), steps in [0, pi] (every in-range
   * frequency), triangle thresholds inside the turn and sine rotors and
   * rotations on the unit circle. Then every sample of a channel whose
   * amplitudes add up to at most 32767 is its sum with the fraction cut off.
   */
  lemma StreamNoClipping(kind: Waveform, ph: seq<real>, steps: seq<real>, rs: seq<Complex>, diffs: seq<Complex>,
                         sigs: seq<Sigparam>, lo: nat, hi: nat, f: nat)
    requires Aligned(sigs, ph, steps, rs, diffs) && Evaluable(kind, sigs, lo, hi)
    requires forall i :: lo <= i < hi ==> 0.0 <= sigs[i].amplitude && 0.0 <= ph[i] < TwoPi && 0.0 <= steps[i] <= PI
    requires kind == Triangle ==> forall i :: lo <= i < hi ==> 0.0 < sigs[i].dutyCyclePhase < TwoPi
    requires kind == Sine ==> forall i :: lo <= i < hi ==> NormSq(rs[i]) == 1.0 && NormSq(diffs[i]) == 1.0
    requires AmplitudeSum(sigs, lo, hi) <= 32767.0
    ensures -1.0 < ChannelSum(kind, PhasesAt(ph, steps, f), RotorsAt(rs, diffs, f), sigs, lo, hi)
                   - Sample(kind, ph, steps, rs, diffs, sigs, lo, hi, f) as real < 1.0
  {
    var P, R := PhasesAt(ph, steps, f), RotorsAt(rs, diffs, f);
    forall i | lo <= i < hi
      ensures -sigs[i].amplitude <= Contribution(kind, P[i], R[i], sigs[i]) <= sigs[i].amplitude
    {
      PhaseAfterNonNegative(ph[i], steps[i], f);
      if kind == Sine {
        RotorKeepsMagnitude(rs[i], diffs[i], f);
      }
      ContributionBounded(kind, P[i], R[i], sigs[i]);
    }
    NoClipping(kind, P, R, sigs, lo, hi);
  }

  /**
   * The bound needs the start phase inside [0, 2pi): the decoder accepts any
   * angle, and a triangle oscillator `440:-90:50:amp` starts at -pi/2, inside
   * the wrap's range but below the turn, where the rising ramp is already at
   * `-2 * amp`, twice as far down as its trough.
   */
  lemma NegativeStartBelowTrough(sv: seq<string>, parse: string -> Option<real>, amp: real)
    requires |sv| == 4 && parse(sv[0]) == Some(440.0) && parse(sv[1]) == Some(-90.0)
    requires parse(sv[2]) == Some(50.0) && parse(sv[3]) == Some(amp) && 0.0 < amp <= MaxAmplitude
    ensures DecodeFields(sv, parse).Ok?
    ensures -TwoPi < DecodeFields(sv, parse).value.phase < 0.0
    ensures TriangleDefined(DecodeFields(sv, parse).value.dutyCyclePhase)
    ensures TriangleValue(DecodeFields(sv, parse).value.phase, DecodeFields(sv, parse).value.dutyCyclePhase, amp) == -2.0 * amp < -amp
  {
    DecodeFieldsNumbers(sv, parse, 440.0, -90.0, 50.0, amp);
    var s := DecodeFields(sv, parse).value;
    assert s.phase == -PI / 2.0;
    assert s.dutyCyclePhase == PI;
    assert 2.0 * (-PI / 2.0) / PI == -1.0;
  }

  /**
   * A start of 360 degrees or more is outside the wrap's range too: `440:720:50:A`
   * starts at 4pi, one sample on it is still at or above 2pi, and the falling
   * ramp there gives `-5 * amp`.
   */
  lemma WideStartOutsideTurn(sv: seq<string>, parse: string -> Option<real>, amp: real, step: real)
    requires |sv| == 4 && parse(sv[0]) == Some(440.0) && parse(sv[1]) == Some(720.0)
    requires parse(sv[2]) == Some(50.0) && parse(sv[3]) == Some(amp) && 0.0 < amp <= MaxAmplitude
    requires 0.0 <= step <= PI
    ensures DecodeFields(sv, parse).Ok?
    ensures DecodeFields(sv, parse).value.phase >= TwoPi
    ensures PhaseAfter(DecodeFields(sv, parse).value.phase, step, 1) >= TwoPi
    ensures TriangleValue(DecodeFields(sv, parse).value.phase, DecodeFields(sv, parse).value.dutyCyclePhase, amp) == -5.0 * amp < -amp
  {
    DecodeFieldsNumbers(sv, parse, 440.0, 720.0, 50.0, amp);
    var s := DecodeFields(sv, parse).value;
    assert s.phase == 2.0 * TwoPi;
    assert s.dutyCyclePhase == PI;
    assert 2.0 * (2.0 * TwoPi - PI) / (TwoPi - PI) == 6.0;
  }

  // ---------------------------------------------------------------------------
  // Oscillator state after one channel fill

  /** The phases after oscillators `[lo, hi)` have advanced `n` samples, the others as they were. */
  function Stepped(ph: seq<real>, steps: seq<real>, lo: nat, hi: nat, n: nat): (r: seq<real>)
    requires |steps| == |ph|
    ensures |r| == |ph|
  {
    seq(|ph|, i requires 0 <= i < |ph| => if lo <= i < hi then PhaseAfter(ph[i], steps[i], n) else ph[i])
  }

  /** The rotors after oscillators `[lo, hi)` have turned `n` samples, the others as they were. */
  function Turned(rs: seq<Complex>, diffs: seq<Complex>, lo: nat, hi: nat, n: nat): (r: seq<Complex>)
    requires |diffs| == |rs|
    ensures |r| == |rs|
  {
    seq(|rs|, i requires 0 <= i < |rs| => if lo <= i < hi then RotorAfter(rs[i], diffs[i], n) else rs[i])
  }

  /** The phases after a channel of waveform `kind` over `[lo, hi)` has run `n` samples; only square and triangle move them. */
  function Advanced(kind: Waveform, ph: seq<real>, steps: seq<real>, lo: nat, hi: nat, n: nat): (r: seq<real>)
    requires |steps| == |ph|
    ensures |r| == |ph|
  {
    if kind == Square || kind == Triangle then Stepped(ph, steps, lo, hi, n) else ph
  }

  /** The rotors after a channel of waveform `kind` over `[lo, hi)` has run `n` samples; only sine moves them. */
  function Rotated(kind: Waveform, rs: seq<Complex>, diffs: seq<Complex>, lo: nat, hi: nat, n: nat): (r: seq<Complex>)
    requires |diffs| == |rs|
    ensures |r| == |rs|
  {
    if kind == Sine then Turned(rs, diffs, lo, hi, n) else rs
  }

  /**
   * The wrap invariant over a whole fill: if every phase is inside (-2pi, 2pi)
   * and every step in [0, pi], every phase is inside afterwards.
   */
  lemma AdvancedInRange(kind: Waveform, ph: seq<real>, steps: seq<real>, lo: nat, hi: nat, n: nat)
    requires |steps| == |ph|
    requires forall i :: 0 <= i < |ph| ==> -TwoPi < ph[i] < TwoPi && 0.0 <= steps[i] <= PI
    ensures forall i :: 0 <= i < |ph| ==> -TwoPi < Advanced(kind, ph, steps, lo, hi, n)[i] < TwoPi
  {
    forall i | 0 <= i < |ph|
      ensures -TwoPi < Advanced(kind, ph, steps, lo, hi, n)[i] < TwoPi
    {
      PhaseAfterInRange(ph[i], steps[i], n);
    }
  }

  /** One sample continues across a fill: sample `f` after `m` samples is sample `m + f` from the start. */
  lemma FrameContinues(kind: Waveform, ph: seq<real>, steps: seq<real>, rs: seq<Complex>, diffs: seq<Complex>,
                       sigs: seq<Sigparam>, lo: nat, hi: nat, m: nat, f: nat)
    requires Aligned(sigs, ph, steps, rs, diffs) && Evaluable(kind, sigs, lo, hi)
    ensures Sample(kind, Advanced(kind, ph, steps, lo, hi, m), steps, Rotated(kind, rs, diffs, lo, hi, m), diffs, sigs, lo, hi, f)
         == Sample(kind, ph, steps, rs, diffs, sigs, lo, hi, m + f)
  {
    var P := PhasesAt(Advanced(kind, ph, steps, lo, hi, m), steps, f);
    var R := RotorsAt(Rotated(kind, rs, diffs, lo, hi, m), diffs, f);
    var P' := PhasesAt(ph, steps, m + f);
    var R' := RotorsAt(rs, diffs, m + f);
    forall i | lo <= i < hi
      ensures Contribution(kind, P[i], R[i], sigs[i]) == Contribution(kind, P'[i], R'[i], sigs[i])
    {
      if kind == Square || kind == Triangle {
        PhaseAfterCompose(ph[i], steps[i], m, f);
      } else if kind == Sine {
        RotorAfterCompose(rs[i], diffs[i], m, f);
      }
    }
    ChannelSumLocal(kind, P, R, P', R', sigs, lo, hi);
  }

  // ---------------------------------------------------------------------------
  // One channel's sample stream

  /** The per-oscillator sequences line up with the signal list. */
  predicate Aligned(sigs: seq<Sigparam>, ph: seq<real>, steps: seq<real>, rs: seq<Complex>, diffs: seq<Complex>)
  {
    |ph| == |sigs| && |steps| == |sigs| && |rs| == |sigs| && |diffs| == |sigs|
  }

  /**
   * The sample a channel of waveform `kind` over oscillators `[lo, hi)`
   * writes `f` samples after phases `ph` and rotors `rs`: the channel sum at
   * that state, cast to 16 bits.
   */
  function Sample(kind: Waveform, ph: seq<real>, steps: seq<real>, rs: seq<Complex>, diffs: seq<Complex>,
                  sigs: seq<Sigparam>, lo: nat, hi: nat, f: nat): i16
    requires Aligned(sigs, ph, steps, rs, diffs) && Evaluable(kind, sigs, lo, hi)
  {
    ToI16(ChannelSum(kind, PhasesAt(ph, steps, f), RotorsAt(rs, diffs, f), sigs, lo, hi))
  }

  /** The first `n` samples of that channel's stream. */
  function ChannelSamples(kind: Waveform, ph: seq<real>, steps: seq<real>, rs: seq<Complex>, diffs: seq<Complex>,
                          sigs: seq<Sigparam>, lo: nat, hi: nat, n: nat): (out: seq<i16>)
    requires Aligned(sigs, ph, steps, rs, diffs) && Evaluable(kind, sigs, lo, hi)
    ensures |out| == n
  {
    if n == 0 then []
    else ChannelSamples(kind, ph, steps, rs, diffs, sigs, lo, hi, n - 1) + [Sample(kind, ph, steps, rs, diffs, sigs, lo, hi, n - 1)]
  }

  /**
   * Sample `f` of the stream is the channel sum of its oscillators at their
   * state `f` samples on, cast to a 16-bit sample.
   */
  lemma {:induction false} ChannelSamplesAt(kind: Waveform, ph: seq<real>, steps: seq<real>, rs: seq<Complex>, diffs: seq<Complex>,
                                            sigs: seq<Sigparam>, lo: nat, hi: nat, n: nat, f: nat)
    requires Aligned(sigs, ph, steps, rs, diffs) && Evaluable(kind, sigs, lo, hi) && f < n
    ensures ChannelSamples(kind, ph, steps, rs, diffs, sigs, lo, hi, n)[f] == Sample(kind, ph, steps, rs, diffs, sigs, lo, hi, f)
    decreases n
  {
    if f < n - 1 {
      ChannelSamplesAt(kind, ph, steps, rs, diffs, sigs, lo, hi, n - 1, f);
    }
  }

  /** A silent channel writes nothing but zeros. */
  lemma SilentSamples(ph: seq<real>, steps: seq<real>, rs: seq<Complex>, diffs: seq<Complex>,
                      sigs: seq<Sigparam>, lo: nat, hi: nat, n: nat)
    requires Aligned(sigs, ph, steps, rs, diffs) && lo <= hi <= |sigs|
    ensures forall f :: 0 <= f < n ==> ChannelSamples(Nowave, ph, steps, rs, diffs, sigs, lo, hi, n)[f] == 0
  {
    forall f | 0 <= f < n
      ensures ChannelSamples(Nowave, ph, steps, rs, diffs, sigs, lo, hi, n)[f] == 0
    {
      ChannelSamplesAt(Nowave, ph, steps, rs, diffs, sigs, lo, hi, n, f);
      SilentChannel(PhasesAt(ph, steps, f), RotorsAt(rs, diffs, f), sigs, lo, hi);
    }
  }

  /**
   * No cross-coupling in the stream: a channel's samples depend only on the
   * phases and rotors of its own oscillators.
   */
  lemma {:induction false} ChannelSamplesLocal(kind: Waveform, ph: seq<real>, ph': seq<real>, steps: seq<real>,
                                               rs: seq<Complex>, rs': seq<Complex>, diffs: seq<Complex>,
                                               sigs: seq<Sigparam>, lo: nat, hi: nat, n: nat)
    requires Aligned(sigs, ph, steps, rs, diffs) && Aligned(sigs, ph', steps, rs', diffs) && Evaluable(kind, sigs, lo, hi)
    requires forall i :: lo <= i < hi ==> ph[i] == ph'[i] && rs[i] == rs'[i]
    ensures ChannelSamples(kind, ph, steps, rs, diffs, sigs, lo, hi, n)
         == ChannelSamples(kind, ph', steps, rs', diffs, sigs, lo, hi, n)
    decreases n
  {
    if n > 0 {
      ChannelSamplesLocal(kind, ph, ph', steps, rs, rs', diffs, sigs, lo, hi, n - 1);
      ChannelSumLocal(kind, PhasesAt(ph, steps, n - 1), RotorsAt(rs, diffs, n - 1),
                      PhasesAt(ph', steps, n - 1), RotorsAt(rs', diffs, n - 1), sigs, lo, hi);
    }
  }

  /**
   * A fill touches only its own oscillators: the stream of a channel over
   * oscillators disjoint from `[lo, hi)` is the same after a fill of
   * `[lo, hi)` as before it.
   */
  lemma OtherChannelUnaffected(kind: Waveform, kind': Waveform, ph: seq<real>, steps: seq<real>, rs: seq<Complex>, diffs: seq<Complex>,
                               sigs: seq<Sigparam>, lo: nat, hi: nat, lo': nat, hi': nat, m: nat, n: nat)
    requires Aligned(sigs, ph, steps, rs, diffs) && Evaluable(kind', sigs, lo', hi')
    requires hi <= lo' || hi' <= lo
    ensures ChannelSamples(kind', Advanced(kind, ph, steps, lo, hi, m), steps, Rotated(kind, rs, diffs, lo, hi, m), diffs, sigs, lo', hi', n)
         == ChannelSamples(kind', ph, steps, rs, diffs, sigs, lo', hi', n)
  {
    ChannelSamplesLocal(kind', Advanced(kind, ph, steps, lo, hi, m), ph, steps, Rotated(kind, rs, diffs, lo, hi, m), rs, diffs, sigs, lo', hi', n);
  }

  /**
   * The stream has no seams: the `n` samples a channel writes after `m`
   * samples (one buffer of `Frames`, say) are samples `m` to `m + n` of the
   * stream counted from the start.
   */
  lemma StreamContinues(kind: Waveform, ph: seq<real>, steps: seq<real>, rs: seq<Complex>, diffs: seq<Complex>,
                        sigs: seq<Sigparam>, lo: nat, hi: nat, m: nat, n: nat)
    requires Aligned(sigs, ph, steps, rs, diffs) && Evaluable(kind, sigs, lo, hi)
    ensures ChannelSamples(kind, Advanced(kind, ph, steps, lo, hi, m), steps, Rotated(kind, rs, diffs, lo, hi, m), diffs, sigs, lo, hi, n)
         == ChannelSamples(kind, ph, steps, rs, diffs, sigs, lo, hi, m + n)[m..]
  {
    var A, Rr := Advanced(kind, ph, steps, lo, hi, m), Rotated(kind, rs, diffs, lo, hi, m);
    var later := ChannelSamples(kind, A, steps, Rr, diffs, sigs, lo, hi, n);
    var whole := ChannelSamples(kind, ph, steps, rs, diffs, sigs, lo, hi, m + n);
    forall j | 0 <= j < n
      ensures later[j] == whole[m + j]
    {
      SampleContinues(kind, ph, steps, rs, diffs, sigs, lo, hi, m, n, j);
    }
  }

  /** Sample `j` of the stream after `m` samples is sample `m + j` of the stream from the start. */
  lemma SampleContinues(kind: Waveform, ph: seq<real>, steps: seq<real>, rs: seq<Complex>, diffs: seq<Complex>,
                        sigs: seq<Sigparam>, lo: nat, hi: nat, m: nat, n: nat, j: nat)
    requires Aligned(sigs, ph, steps, rs, diffs) && Evaluable(kind, sigs, lo, hi) && j < n
    ensures ChannelSamples(kind, Advanced(kind, ph, steps, lo, hi, m), steps, Rotated(kind, rs, diffs, lo, hi, m), diffs, sigs, lo, hi, n)[j]
         == ChannelSamples(kind, ph, steps, rs, diffs, sigs, lo, hi, m + n)[m + j]
  {
    var ph', rs' := Advanced(kind, ph, steps, lo, hi, m), Rotated(kind, rs, diffs, lo, hi, m);
    calc {
      ChannelSamples(kind, ph', steps, rs', diffs, sigs, lo, hi, n)[j];
      { ChannelSamplesAt(kind, ph', steps, rs', diffs, sigs, lo, hi, n, j); }
      Sample(kind, ph', steps, rs', diffs, sigs, lo, hi, j);
      { FrameContinues(kind, ph, steps, rs, diffs, sigs, lo, hi, m, j); }
      Sample(kind, ph, steps, rs, diffs, sigs, lo, hi, m + j);
      { ChannelSamplesAt(kind, ph, steps, rs, diffs, sigs, lo, hi, m + n, m + j); }
      ChannelSamples(kind, ph, steps, rs, diffs, sigs, lo, hi, m + n)[m + j];
    }
  }

  // ---------------------------------------------------------------------------
  // Precompute

  /**
   * The per-oscillator precompute: the phase step from the frequency, the
   * sine rotor started a quarter turn ahead of the phase, and the rotor's
   * per-sample rotation; `cis` stands for `x => exp(i * x)`.
   */
  method Precompute(sigs: seq<Sigparam>, cis: real -> Complex) returns (steps: seq<real>, rotors: seq<Complex>, diffs: seq<Complex>)
    ensures |steps| == |sigs| && |rotors| == |sigs| && |diffs| == |sigs|
    ensures forall i :: 0 <= i < |sigs| ==>
      && steps[i] == PhaseStep(sigs[i].frequency)
      && rotors[i] == cis(sigs[i].phase + PI / 2.0)
      && diffs[i] == cis(steps[i])
    ensures (forall i :: 0 <= i < |sigs| ==> InRange(sigs[i])) ==> forall i :: 0 <= i < |sigs| ==> 0.0 <= steps[i] <= PI
  {
    steps, rotors, diffs := [], [], [];
    for i := 0 to |sigs|
      invariant |steps| == i && |rotors| == i && |diffs| == i
      invariant forall j :: 0 <= j < i ==>
        && steps[j] == PhaseStep(sigs[j].frequency)
        && rotors[j] == cis(sigs[j].phase + PI / 2.0)
        && diffs[j] == cis(steps[j])
    {
      rotors := rotors + [cis(sigs[i].phase + PI / 2.0)];
      var phasestep := sigs[i].frequency / SampleRate * 2.0 * PI;
      steps := steps + [phasestep];
      diffs := diffs + [cis(phasestep)];
    }
  }

  // ---------------------------------------------------------------------------
  // The oscillator bank

  /**
   * All oscillators of both channels, the left ones first: their settings,
   * phase steps and rotations, and the live phase and rotor of each.
   */
  class OscillatorBank {
    const sigs: seq<Sigparam>
    const leftLen: nat
    const steps: seq<real>
    const diffs: seq<Complex>
    const phase: array<real>
    const rotor: array<Complex>

    predicate Valid()
    {
      && leftLen <= |sigs|
      && |steps| == |sigs| && |diffs| == |sigs|
      && phase.Length == |sigs| && rotor.Length == |sigs|
    }

    /**
     * The left signals followed by the right ones, each oscillator starting at
     * its configured phase with its rotor a quarter turn ahead.
     */
    constructor (left: seq<Sigparam>, right: seq<Sigparam>, cis: real -> Complex)
      ensures Valid() && fresh(phase) && fresh(rotor)
      ensures sigs == left + right && leftLen == |left|
      ensures forall i :: 0 <= i < |sigs| ==>
        && steps[i] == PhaseStep(sigs[i].frequency)
        && diffs[i] == cis(steps[i])
        && phase[i] == sigs[i].phase
        && rotor[i] == cis(sigs[i].phase + PI / 2.0)
    {
      var all := left + right;
      var st, rs, ds := Precompute(all, cis);
      sigs := all;
      leftLen := |left|;
      steps := st;
      diffs := ds;
      phase := new real[|all|](i requires 0 <= i < |all| => all[i].phase);
      rotor := new Complex[|all|](i requires 0 <= i < |rs| => rs[i]);
    }

    /** `sig[i].phase += phasestepvec[i]` and the wrap, in place. */
    method AdvancePhase(i: nat)
      requires Valid() && i < |sigs|
      modifies phase
      ensures phase[i] == Advance(old(phase[i]), steps[i])
      ensures forall j :: 0 <= j < phase.Length && j != i ==> phase[j] == old(phase[j])
    {
      phase[i] := phase[i] + steps[i];
      if phase[i] <= -TwoPi {
        phase[i] := phase[i] + TwoPi;
      } else if phase[i] >= TwoPi {
        phase[i] := phase[i] - TwoPi;
      }
    }

    /**
     * One sample of a square or triangle channel over oscillators `[lo, hi)`:
     * every oscillator is evaluated at its current phase and then advanced.
     */
    method ShapedSum(kind: Waveform, lo: nat, hi: nat) returns (signal: real)
      requires Valid() && (kind == Square || kind == Triangle) && Evaluable(kind, sigs, lo, hi)
      modifies phase
      ensures signal == ChannelSum(kind, old(phase[..]), rotor[..], sigs, lo, hi)
      ensures forall j :: 0 <= j < phase.Length ==>
        phase[j] == if lo <= j < hi then Advance(old(phase[j]), steps[j]) else old(phase[j])
    {
      ghost var P := phase[..];
      signal := 0.0;
      for i := lo to hi
        invariant signal == ChannelSum(kind, P, rotor[..], sigs, lo, i)
        invariant forall j :: lo <= j < i ==> phase[j] == Advance(P[j], steps[j])
        invariant forall j :: 0 <= j < phase.Length && !(lo <= j < i) ==> phase[j] == P[j]
      {
        ghost var sum := signal + Contribution(kind, P[i], rotor[i], sigs[i]);
        assert sum == ChannelSum(kind, P, rotor[..], sigs, lo, i + 1);
        assert phase[i] == P[i];
        var term := ShapedTerm(kind, i);
        signal := signal + term;
        assert signal == sum;
        AdvancePhase(i);
      }
    }

    /**
     * Oscillator `i`'s term in a square or triangle sample at its current
     * phase: added below the duty threshold, subtracted from it on.
     */
    method ShapedTerm(kind: Waveform, i: nat) returns (term: real)
      requires Valid() && (kind == Square || kind == Triangle) && i < |sigs|
      requires kind == Triangle ==> TriangleDefined(sigs[i].dutyCyclePhase)
      ensures term == Contribution(kind, phase[i], rotor[i], sigs[i])
    {
      var d, amp := sigs[i].dutyCyclePhase, sigs[i].amplitude;
      if kind == Square {
        if phase[i] < d {
          term := amp;
        } else {
          term := -amp;
        }
      } else {
        if phase[i] < d {
          term := amp * (-1.0 + 2.0 * phase[i] / d);
        } else {
          term := -(amp * (-1.0 + 2.0 * (phase[i] - d) / (TwoPi - d)));
        }
      }
    }

    /**
     * Frame `idx` of a square or triangle channel over oscillators `[lo, hi)`,
     * the body of `FillShaped`'s loop: with the phases advanced `idx` times
     * from `ph0` and the first `idx` samples of the channel's stream in slot
     * `slot`, it writes the next sample there and advances every phase once
     * more; the other slot keeps what it had.
     */
    method ShapedFrame(buf: array<i16>, kind: Waveform, lo: nat, hi: nat, slot: nat, idx: nat,
                       ghost ph0: seq<real>, ghost r0: seq<Complex>, ghost b0: seq<i16>)
      requires Valid() && buf.Length == BufferLength && slot < 2 && idx < Frames
      requires |ph0| == |sigs| && |r0| == |sigs| && |b0| == BufferLength
      requires (kind == Square || kind == Triangle) && Evaluable(kind, sigs, lo, hi)
      requires phase[..] == Stepped(ph0, steps, lo, hi, idx)
      requires Channel(buf[..], slot, idx) == ChannelSamples(kind, ph0, steps, r0, diffs, sigs, lo, hi, idx)
      requires Channel(buf[..], 1 - slot, Frames) == Channel(b0, 1 - slot, Frames)
      modifies phase, buf
      ensures phase[..] == Stepped(ph0, steps, lo, hi, idx + 1)
      ensures Channel(buf[..], slot, idx + 1) == ChannelSamples(kind, ph0, steps, r0, diffs, sigs, lo, hi, idx + 1)
      ensures Channel(buf[..], 1 - slot, Frames) == Channel(b0, 1 - slot, Frames)
      ensures forall f :: idx < f < Frames ==> buf[Interleaved(f, slot)] == old(buf[Interleaved(f, slot)])
    {
      ghost var b := buf[..];
      var sample := ShapedSample(kind, lo, hi, idx, ph0, r0);
      buf[Interleaved(idx, slot)] := sample;
      assert buf[..] == b[Interleaved(idx, slot) := sample];
      ChannelWrite(b, slot, idx, sample);
      ChannelWriteOther(b, slot, 1 - slot, idx, Frames, sample);
    }

    /**
     * Sample `idx` of a square or triangle channel over oscillators `[lo, hi)`
     * whose phases have advanced `idx` times from `ph0`, advancing them once more.
     */
    method ShapedSample(kind: Waveform, lo: nat, hi: nat, idx: nat, ghost ph0: seq<real>, ghost r0: seq<Complex>) returns (sample: i16)
      requires Valid() && |ph0| == |sigs| && |r0| == |sigs|
      requires (kind == Square || kind == Triangle) && Evaluable(kind, sigs, lo, hi)
      requires phase[..] == Stepped(ph0, steps, lo, hi, idx)
      modifies phase
      ensures phase[..] == Stepped(ph0, steps, lo, hi, idx + 1)
      ensures sample == Sample(kind, ph0, steps, r0, diffs, sigs, lo, hi, idx)
    {
      ghost var P, Q, R := phase[..], PhasesAt(ph0, steps, idx), RotorsAt(r0, diffs, idx);
      forall i | lo <= i < hi
        ensures Contribution(kind, P[i], rotor[i], sigs[i]) == Contribution(kind, Q[i], R[i], sigs[i])
      {
      }
      var signal := ShapedSum(kind, lo, hi);
      ChannelSumLocal(kind, P, rotor[..], Q, R, sigs, lo, hi);
      sample := ToI16(signal);
    }

    /**
     * A square or triangle channel over oscillators `[lo, hi)` writing slot
     * `slot` of every frame.
     */
    method FillShaped(buf: array<i16>, kind: Waveform, lo: nat, hi: nat, slot: nat)
      requires Valid() && buf.Length == BufferLength && slot < 2
      requires (kind == Square || kind == Triangle) && Evaluable(kind, sigs, lo, hi)
      modifies phase, buf
      ensures phase[..] == Stepped(old(phase[..]), steps, lo, hi, Frames)
      ensures Channel(buf[..], slot, Frames) == ChannelSamples(kind, old(phase[..]), steps, old(rotor[..]), diffs, sigs, lo, hi, Frames)
      ensures Channel(buf[..], 1 - slot, Frames) == Channel(old(buf[..]), 1 - slot, Frames)
    {
      ghost var ph0, r0, b0 := phase[..], rotor[..], buf[..];
      for idx := 0 to Frames
        invariant phase[..] == Stepped(ph0, steps, lo, hi, idx)
        invariant Channel(buf[..], slot, idx) == ChannelSamples(kind, ph0, steps, r0, diffs, sigs, lo, hi, idx)
        invariant Channel(buf[..], 1 - slot, Frames) == Channel(b0, 1 - slot, Frames)
      {
        ShapedFrame(buf, kind, lo, hi, slot, idx, ph0, r0, b0);
      }
    }

    /**
     * One sample of a sine channel over oscillators `[lo, hi)`: every rotor's
     * real part times its amplitude is added, then the rotor is turned by its
     * per-sample rotation.
     */
    method SineSum(lo: nat, hi: nat) returns (signal: real)
      requires Valid() && lo <= hi <= |sigs|
      modifies rotor
      ensures signal == ChannelSum(Sine, phase[..], old(rotor[..]), sigs, lo, hi)
      ensures forall j :: 0 <= j < rotor.Length ==>
        rotor[j] == if lo <= j < hi then Mul(old(rotor[j]), diffs[j]) else old(rotor[j])
    {
      ghost var R := rotor[..];
      signal := 0.0;
      for i := lo to hi
        invariant signal == ChannelSum(Sine, phase[..], R, sigs, lo, i)
        invariant forall j :: lo <= j < i ==> rotor[j] == Mul(R[j], diffs[j])
        invariant forall j :: 0 <= j < rotor.Length && !(lo <= j < i) ==> rotor[j] == R[j]
      {
        signal := signal + rotor[i].re * sigs[i].amplitude;
        rotor[i] := Mul(rotor[i], diffs[i]);
      }
    }

    /**
     * Frame `idx` of a sine channel over oscillators `[lo, hi)`, the body of
     * `FillSine`'s loop: with the rotors turned `idx` times from `r0` and the
     * first `idx` samples of the channel's stream in slot `slot`, it writes
     * the next sample there and turns every rotor once more; the other slot
     * keeps what it had.
     */
    method SineFrame(buf: array<i16>, lo: nat, hi: nat, slot: nat, idx: nat,
                     ghost ph0: seq<real>, ghost r0: seq<Complex>, ghost b0: seq<i16>)
      requires Valid() && buf.Length == BufferLength && slot < 2 && lo <= hi <= |sigs| && idx < Frames
      requires |ph0| == |sigs| && |r0| == |sigs| && |b0| == BufferLength
      requires rotor[..] == Turned(r0, diffs, lo, hi, idx)
      requires Channel(buf[..], slot, idx) == ChannelSamples(Sine, ph0, steps, r0, diffs, sigs, lo, hi, idx)
      requires Channel(buf[..], 1 - slot, Frames) == Channel(b0, 1 - slot, Frames)
      modifies rotor, buf
      ensures rotor[..] == Turned(r0, diffs, lo, hi, idx + 1)
      ensures Channel(buf[..], slot, idx + 1) == ChannelSamples(Sine, ph0, steps, r0, diffs, sigs, lo, hi, idx + 1)
      ensures Channel(buf[..], 1 - slot, Frames) == Channel(b0, 1 - slot, Frames)
      ensures forall f :: idx < f < Frames ==> buf[Interleaved(f, slot)] == old(buf[Interleaved(f, slot)])
    {
      ghost var b := buf[..];
      var sample := SineSample(lo, hi, idx, ph0, r0);
      buf[Interleaved(idx, slot)] := sample;
      assert buf[..] == b[Interleaved(idx, slot) := sample];
      ChannelWrite(b, slot, idx, sample);
      ChannelWriteOther(b, slot, 1 - slot, idx, Frames, sample);
    }

    /**
     * Sample `idx` of a sine channel over oscillators `[lo, hi)` whose rotors
     * have turned `idx` times from `r0`, turning them once more.
     */
    method SineSample(lo: nat, hi: nat, idx: nat, ghost ph0: seq<real>, ghost r0: seq<Complex>) returns (sample: i16)
      requires Valid() && lo <= hi <= |sigs| && |ph0| == |sigs| && |r0| == |sigs|
      requires rotor[..] == Turned(r0, diffs, lo, hi, idx)
      modifies rotor
      ensures rotor[..] == Turned(r0, diffs, lo, hi, idx + 1)
      ensures sample == Sample(Sine, ph0, steps, r0, diffs, sigs, lo, hi, idx)
    {
      ghost var R, Q := rotor[..], RotorsAt(r0, diffs, idx);
      assert forall i :: lo <= i < hi ==> R[i] == Q[i];
      var signal := SineSum(lo, hi);
      ChannelSumLocal(Sine, phase[..], R, PhasesAt(ph0, steps, idx), Q, sigs, lo, hi);
      sample := ToI16(signal);
    }

    /** A sine channel over oscillators `[lo, hi)` writing slot `slot` of every frame. */
    method FillSine(buf: array<i16>, lo: nat, hi: nat, slot: nat)
      requires Valid() && buf.Length == BufferLength && slot < 2 && lo <= hi <= |sigs|
      modifies rotor, buf
      ensures rotor[..] == Turned(old(rotor[..]), diffs, lo, hi, Frames)
      ensures Channel(buf[..], slot, Frames) == ChannelSamples(Sine, old(phase[..]), steps, old(rotor[..]), diffs, sigs, lo, hi, Frames)
      ensures Channel(buf[..], 1 - slot, Frames) == Channel(old(buf[..]), 1 - slot, Frames)
    {
      ghost var ph0, r0, b0 := phase[..], rotor[..], buf[..];
      for idx := 0 to Frames
        invariant rotor[..] == Turned(r0, diffs, lo, hi, idx)
        invariant Channel(buf[..], slot, idx) == ChannelSamples(Sine, ph0, steps, r0, diffs, sigs, lo, hi, idx)
        invariant Channel(buf[..], 1 - slot, Frames) == Channel(b0, 1 - slot, Frames)
      {
        SineFrame(buf, lo, hi, slot, idx, ph0, r0, b0);
      }
    }

    /** A silent channel: zero in slot `slot` of every frame, no oscillator touched. */
    method FillSilent(buf: array<i16>, slot: nat)
      requires buf.Length == BufferLength && slot < 2
      modifies buf
      ensures Channel(buf[..], slot, Frames) == seq(Frames, f => 0)
      ensures Channel(buf[..], 1 - slot, Frames) == Channel(old(buf[..]), 1 - slot, Frames)
    {
      ghost var b0 := buf[..];
      for idx := 0 to Frames
        invariant Channel(buf[..], slot, idx) == seq(idx, f => 0)
        invariant Channel(buf[..], 1 - slot, Frames) == Channel(b0, 1 - slot, Frames)
      {
        ghost var b := buf[..];
        buf[Interleaved(idx, slot)] := 0;
        ChannelWrite(b, slot, idx, 0);
        ChannelWriteOther(b, slot, 1 - slot, idx, Frames, 0);
      }
    }

    /**
     * One channel of waveform `kind` over oscillators `[lo, hi)` into slot
     * `slot`: the channel's stream from the state before the fill, the other
     * channel as it was, and only this channel's oscillators move.
     */
    method FillChannel(buf: array<i16>, kind: Waveform, lo: nat, hi: nat, slot: nat)
      requires Valid() && buf.Length == BufferLength && slot < 2 && Evaluable(kind, sigs, lo, hi)
      modifies phase, rotor, buf
      ensures phase[..] == Advanced(kind, old(phase[..]), steps, lo, hi, Frames)
      ensures rotor[..] == Rotated(kind, old(rotor[..]), diffs, lo, hi, Frames)
      ensures Channel(buf[..], slot, Frames) == ChannelSamples(kind, old(phase[..]), steps, old(rotor[..]), diffs, sigs, lo, hi, Frames)
      ensures Channel(buf[..], 1 - slot, Frames) == Channel(old(buf[..]), 1 - slot, Frames)
    {
      ghost var ph0, r0 := phase[..], rotor[..];
      match kind {
        case Sine =>
          FillSine(buf, lo, hi, slot);
        case Square =>
          FillShaped(buf, Square, lo, hi, slot);
        case Triangle =>
          FillShaped(buf, Triangle, lo, hi, slot);
        case Nowave =>
          FillSilent(buf, slot);
          SilentSamples(ph0, steps, r0, diffs, sigs, lo, hi, Frames);
      }
    }

    /**
     * One buffer of the stream: the left waveform over the left oscillators
     * into the even slots, then the right waveform over the right oscillators
     * into the odd slots. Each channel's samples are its stream from the
     * state before the fill, untouched by the other channel.
     */
    method FillBuffer(buf: array<i16>, leftType: Waveform, rightType: Waveform)
      requires Valid() && buf.Length == BufferLength
      requires Evaluable(leftType, sigs, 0, leftLen) && Evaluable(rightType, sigs, leftLen, |sigs|)
      modifies phase, rotor, buf
      ensures Channel(buf[..], 0, Frames) == ChannelSamples(leftType, old(phase[..]), steps, old(rotor[..]), diffs, sigs, 0, leftLen, Frames)
      ensures Channel(buf[..], 1, Frames) == ChannelSamples(rightType, old(phase[..]), steps, old(rotor[..]), diffs, sigs, leftLen, |sigs|, Frames)
      ensures phase[..] == Advanced(rightType, Advanced(leftType, old(phase[..]), steps, 0, leftLen, Frames), steps, leftLen, |sigs|, Frames)
      ensures rotor[..] == Rotated(rightType, Rotated(leftType, old(rotor[..]), diffs, 0, leftLen, Frames), diffs, leftLen, |sigs|, Frames)
    {
      ghost var ph0, r0 := phase[..], rotor[..];
      ghost var left := ChannelSamples(leftType, ph0, steps, r0, diffs, sigs, 0, leftLen, Frames);
      ghost var right := ChannelSamples(rightType, ph0, steps, r0, diffs, sigs, leftLen, |sigs|, Frames);
      OtherChannelUnaffected(leftType, rightType, ph0, steps, r0, diffs, sigs, 0, leftLen, leftLen, |sigs|, Frames, Frames);
      FillChannel(buf, leftType, 0, leftLen, 0);
      ghost var ph1, r1, b1 := phase[..], rotor[..], buf[..];
      assert ph1 == Advanced(leftType, ph0, steps, 0, leftLen, Frames);
      assert r1 == Rotated(leftType, r0, diffs, 0, leftLen, Frames);
      assert Channel(b1, 0, Frames) == left;
      assert ChannelSamples(rightType, ph1, steps, r1, diffs, sigs, leftLen, |sigs|, Frames) == right;
      FillChannel(buf, rightType, leftLen, |sigs|, 1);
      assert phase[..] == Advanced(rightType, ph1, steps, leftLen, |sigs|, Frames);
      assert rotor[..] == Rotated(rightType, r1, diffs, leftLen, |sigs|, Frames);
      assert Channel(buf[..], 0, Frames) == left;
    }
  }
}
