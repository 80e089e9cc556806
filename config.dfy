/**
 * Configuration decoding of the tone generator: the waveform name of a
 * channel and the channel's list of `freq:phase:duty:amp` signal tuples.
 */
module Config {
  import opened Numerics

  /** The waveform a whole channel is evaluated with. */
  datatype Waveform = Sine | Square | Triangle | Nowave

  /**
   * One oscillator's settings after decoding: frequency in Hz, starting phase
   * in radians, duty-cycle threshold in radians and amplitude.
   */
  datatype Sigparam = Sigparam(frequency: real, phase: real, dutyCyclePhase: real, amplitude: real)

  datatype Option<T> = None | Some(value: T)

  /** Why decoding a signal list stops the process. */
  datatype DecodeError =
    | BadNumber            // a field's `parse().unwrap()` panics
    | MissingField         // `sv[k]` is indexed past the end of the fields
    | FrequencyOutOfRange  // `exit(1)` after "Freq range: 0..24000"
    | AmplitudeOutOfRange  // `exit(1)` after "Amp range: 0..32767"

  datatype Result<T> = Ok(value: T) | Err(error: DecodeError) {
    predicate IsFailure() { Err? }
    function PropagateFailure<U>(): Result<U> requires Err? { Err(error) }
    function Extract(): T requires Ok? { value }
  }

  /**
   * What `sigstrdec` produces: the signal list or the reason the process
   * stops, and the field counts of the arity diagnostics it printed on the
   * way (one per token that does not have exactly four fields).
   */
  datatype Decoded = Decoded(signals: Result<seq<Sigparam>>, diagnostics: seq<nat>)

  const MaxFrequency: real := 24000.0
  const MaxAmplitude: real := 32767.0

  /** The ranges every returned descriptor is in. */
  predicate InRange(s: Sigparam)
  {
    0.0 <= s.frequency <= MaxFrequency && 0.0 <= s.amplitude <= MaxAmplitude
  }

  // ---------------------------------------------------------------------------
  // Waveform labels (`sigtypedec`)

  /** `sigtypedec`: the three known labels select their waveform, anything else silences the channel. */
  function SigTypeDec(name: string): (w: Waveform)
    ensures w == Nowave <==> name != "sine" && name != "square" && name != "triangle"
  {
    match name
    case "sine" => Sine
    case "square" => Square
    case "triangle" => Triangle
    case _ => Nowave
  }

  /** The name that selects a waveform; the inverse of `SigTypeDec` on the audible waveforms. */
  function Label(w: Waveform): (name: string)
    requires w != Nowave
  {
    match w
    case Sine => "sine"
    case Square => "square"
    case Triangle => "triangle"
  }

  /** Every audible waveform is selected by exactly one name: its own. */
  lemma SigTypeDecLabel(w: Waveform, name: string)
    requires w != Nowave
    ensures SigTypeDec(Label(w)) == w
    ensures SigTypeDec(name) == w <==> name == Label(w)
  {
  }

  // ---------------------------------------------------------------------------
  // Splitting (`str::split` with a one-character pattern)

  /**
   * `s.split(sep)`: the pieces between separators, empty pieces included; an
   * empty string gives one empty piece.
   */
  function Split(s: string, sep: char): (parts: seq<string>)
    ensures |parts| >= 1
    ensures forall k :: 0 <= k < |parts| ==> sep !in parts[k]
    decreases |s|
  {
    if |s| == 0 then [""]
    else
      var rest := Split(s[1..], sep);
      if s[0] == sep then [""] + rest
      else [[s[0]] + rest[0]] + rest[1..]
  }

  /** The pieces glued back together with the separator between them. */
  function Join(parts: seq<string>, sep: char): string
    requires |parts| >= 1
  {
    if |parts| == 1 then parts[0] else parts[0] + [sep] + Join(parts[1..], sep)
  }

  /** Splitting loses nothing: joining the pieces gives the input back. */
  lemma {:induction false} JoinSplit(s: string, sep: char)
    ensures Join(Split(s, sep), sep) == s
    decreases |s|
  {
    if |s| > 0 {
      var rest := Split(s[1..], sep);
      JoinSplit(s[1..], sep);
      if s[0] == sep {
        assert ([""] + rest)[1..] == rest;
      } else if |rest| > 1 {
        var parts := Split(s, sep);
        assert parts[1..] == rest[1..];
        assert Join(rest, sep) == rest[0] + [sep] + Join(rest[1..], sep);
        assert s == [s[0]] + s[1..];
      } else {
        assert s == [s[0]] + s[1..];
      }
    }
  }

  // ---------------------------------------------------------------------------
  // One `freq:phase:duty:amp` tuple

  /** `sv[k].parse::<f64>().unwrap()`, with `parse` standing for Rust's float parser. */
  function Field(sv: seq<string>, k: nat, parse: string -> Option<real>): (r: Result<real>)
    ensures r.Ok? <==> k < |sv| && parse(sv[k]).Some?
    ensures r.Ok? ==> r.value == parse(sv[k]).value
    ensures r == Err(MissingField) <==> |sv| <= k
  {
    if k < |sv| then
      match parse(sv[k])
      case Some(x) => Ok(x)
      case None => Err(BadNumber)
    else Err(MissingField)
  }

  /**
   * The `Sigparam` built from one token's colon fields, in the order the
   * struct literal evaluates them, followed by the two range checks.
   */
  function DecodeFields(sv: seq<string>, parse: string -> Option<real>): (r: Result<Sigparam>)
    ensures r.Ok? ==> InRange(r.value)
    ensures r.Ok? ==>
      && |sv| >= 4
      && (forall k :: 0 <= k < 4 ==> parse(sv[k]).Some?)
      && r.value.frequency == parse(sv[0]).value
      && r.value.phase == parse(sv[1]).value / 180.0 * PI
      && r.value.dutyCyclePhase == parse(sv[2]).value / 100.0 * 2.0 * PI
      && r.value.amplitude == parse(sv[3]).value
  {
    var freq :- Field(sv, 0, parse);
    var degrees :- Field(sv, 1, parse);
    var percent :- Field(sv, 2, parse);
    var amp :- Field(sv, 3, parse);
    if freq < 0.0 || freq > MaxFrequency then Err(FrequencyOutOfRange)
    else if amp < 0.0 || amp > MaxAmplitude then Err(AmplitudeOutOfRange)
    else Ok(Sigparam(freq, degrees / 180.0 * PI, percent / 100.0 * 2.0 * PI, amp))
  }

  /** Fields after the fourth are ignored. */
  lemma ExtraFieldsIgnored(sv: seq<string>, parse: string -> Option<real>)
    requires |sv| > 4
    ensures DecodeFields(sv, parse) == DecodeFields(sv[..4], parse)
  {
    forall k | 0 <= k < 4 ensures Field(sv, k, parse) == Field(sv[..4], k, parse) {
      assert sv[k] == sv[..4][k];
    }
  }

  /** Fewer than four fields never yield a descriptor: a parse or an index fails first. */
  lemma TooFewFieldsFail(sv: seq<string>, parse: string -> Option<real>)
    requires |sv| < 4
    ensures DecodeFields(sv, parse).Err?
    ensures DecodeFields(sv, parse).error == BadNumber || DecodeFields(sv, parse).error == MissingField
  {
  }

  /**
   * With four numbers in hand the only outcomes are the range errors and the
   * converted descriptor: degrees and percent become radians exactly once.
   */
  lemma DecodeFieldsNumbers(sv: seq<string>, parse: string -> Option<real>, f: real, deg: real, pct: real, a: real)
    requires |sv| >= 4
    requires parse(sv[0]) == Some(f) && parse(sv[1]) == Some(deg)
    requires parse(sv[2]) == Some(pct) && parse(sv[3]) == Some(a)
    ensures DecodeFields(sv, parse) ==
      if f < 0.0 || f > MaxFrequency then Err(FrequencyOutOfRange)
      else if a < 0.0 || a > MaxAmplitude then Err(AmplitudeOutOfRange)
      else Ok(Sigparam(f, deg / 180.0 * PI, pct / 100.0 * 2.0 * PI, a))
  {
  }

  // ---------------------------------------------------------------------------
  // A whole signal list (`sigstrdec`)

  /** The diagnostic printed before a token's fields are used, if any. */
  function ArityDiagnostic(sv: seq<string>): (d: seq<nat>)
    ensures d == [] <==> |sv| == 4
    ensures forall k :: 0 <= k < |d| ==> d[k] == |sv|
    ensures |d| <= 1
  {
    if |sv| != 4 then [|sv|] else []
  }

  /** Decoding the tokens one after the other, stopping at the first failure. */
  function DecodeTokens(toks: seq<string>, parse: string -> Option<real>): Decoded
    decreases |toks|
  {
    if |toks| == 0 then Decoded(Ok([]), [])
    else
      var prev := DecodeTokens(toks[..|toks| - 1], parse);
      if prev.signals.Err? then prev
      else
        var sv := Split(toks[|toks| - 1], ':');
        var diagnostics := prev.diagnostics + ArityDiagnostic(sv);
        match DecodeFields(sv, parse)
        case Err(e) => Decoded(Err(e), diagnostics)
        case Ok(s) => Decoded(Ok(prev.signals.value + [s]), diagnostics)
  }

  /** Once a prefix of the tokens has failed, the tokens after it change nothing: the process has stopped. */
  lemma {:induction false} FailureStops(toks: seq<string>, n: nat, parse: string -> Option<real>)
    requires n <= |toks|
    requires DecodeTokens(toks[..n], parse).signals.Err?
    ensures DecodeTokens(toks, parse) == DecodeTokens(toks[..n], parse)
    decreases |toks| - n
  {
    if n < |toks| {
      assert toks[..n + 1][..n] == toks[..n];
      FailureStops(toks, n + 1, parse);
    } else {
      assert toks[..n] == toks;
    }
  }

  /** What `sigstrdec` computes for a whole space-separated list. */
  function DecodeSignals(sigstr: string, parse: string -> Option<real>): Decoded
  {
    if |sigstr| == 0 then Decoded(Ok([]), []) else DecodeTokens(Split(sigstr, ' '), parse)
  }

  /** The descriptor a single token decodes to. */
  function DecodeToken(tok: string, parse: string -> Option<real>): Result<Sigparam>
  {
    DecodeFields(Split(tok, ':'), parse)
  }

  /** A list decodes if and only if every one of its tokens does. */
  lemma {:induction false} DecodeTokensOk(toks: seq<string>, parse: string -> Option<real>)
    ensures DecodeTokens(toks, parse).signals.Ok? <==>
      forall k :: 0 <= k < |toks| ==> DecodeToken(toks[k], parse).Ok?
    decreases |toks|
  {
    if |toks| > 0 {
      var init := toks[..|toks| - 1];
      DecodeTokensOk(init, parse);
      assert forall k :: 0 <= k < |init| ==> init[k] == toks[k];
    }
  }

  /** A decoded list holds one descriptor per token, in input order. */
  lemma {:induction false} DecodeTokensInOrder(toks: seq<string>, parse: string -> Option<real>)
    requires DecodeTokens(toks, parse).signals.Ok?
    ensures |DecodeTokens(toks, parse).signals.value| == |toks|
    ensures forall k :: 0 <= k < |toks| ==>
      DecodeToken(toks[k], parse) == Ok(DecodeTokens(toks, parse).signals.value[k])
    decreases |toks|
  {
    if |toks| > 0 {
      var init := toks[..|toks| - 1];
      var prev := DecodeTokens(init, parse);
      assert prev.signals.Ok?;
      DecodeTokensInOrder(init, parse);
      var sigs := DecodeTokens(toks, parse).signals.value;
      assert DecodeToken(toks[|toks| - 1], parse) == Ok(sigs[|toks| - 1]);
      assert sigs[..|init|] == prev.signals.value;
      forall k | 0 <= k < |toks|
        ensures DecodeToken(toks[k], parse) == Ok(sigs[k])
      {
        if k < |init| {
          assert init[k] == toks[k];
        }
      }
    }
  }

  /** A decoded list printed no arity diagnostic exactly when every token has four fields. */
  lemma {:induction false} DecodeTokensQuiet(toks: seq<string>, parse: string -> Option<real>)
    requires DecodeTokens(toks, parse).signals.Ok?
    ensures DecodeTokens(toks, parse).diagnostics == [] <==>
      forall k :: 0 <= k < |toks| ==> |Split(toks[k], ':')| == 4
    decreases |toks|
  {
    if |toks| > 0 {
      var init := toks[..|toks| - 1];
      DecodeTokensQuiet(init, parse);
      assert forall k :: 0 <= k < |init| ==> init[k] == toks[k];
    }
  }

  /** Every diagnostic reports a field count other than four. */
  lemma {:induction false} DiagnosticsAreArityErrors(toks: seq<string>, parse: string -> Option<real>)
    ensures forall k :: 0 <= k < |DecodeTokens(toks, parse).diagnostics| ==>
      DecodeTokens(toks, parse).diagnostics[k] != 4
    decreases |toks|
  {
    if |toks| > 0 {
      DiagnosticsAreArityErrors(toks[..|toks| - 1], parse);
    }
  }

  /** Every descriptor of a successfully decoded list is within the frequency and amplitude bounds. */
  lemma {:induction false} DecodedInRange(toks: seq<string>, parse: string -> Option<real>)
    ensures DecodeTokens(toks, parse).signals.Ok? ==>
      forall k :: 0 <= k < |DecodeTokens(toks, parse).signals.value| ==>
        InRange(DecodeTokens(toks, parse).signals.value[k])
    decreases |toks|
  {
    if |toks| > 0 {
      DecodedInRange(toks[..|toks| - 1], parse);
    }
  }

  /** A token out of range stops the whole list: nothing is returned for it. */
  lemma RejectedTokenRejectsList(sigstr: string, parse: string -> Option<real>, k: nat)
    requires |sigstr| > 0 && k < |Split(sigstr, ' ')|
    requires DecodeToken(Split(sigstr, ' ')[k], parse).Err?
    ensures DecodeSignals(sigstr, parse).signals.Err?
  {
    DecodeTokensOk(Split(sigstr, ' '), parse);
  }

  /**
   * `sigstrdec`: the empty string gives no signals; otherwise each
   * space-separated token is decoded in turn and appended, and the first
   * failing token stops the process.
   */
  method SigStrDec(sigstr: string, parse: string -> Option<real>) returns (d: Decoded)
    ensures d == DecodeSignals(sigstr, parse)
    ensures |sigstr| == 0 ==> d == Decoded(Ok([]), [])
  {
    if |sigstr| == 0 {
      return Decoded(Ok([]), []);
    }
    var toks := Split(sigstr, ' ');
    var sigpvec: seq<Sigparam> := [];
    var diagnostics: seq<nat> := [];
    var k := 0;
    while k < |toks|
      invariant 0 <= k <= |toks|
      invariant DecodeTokens(toks[..k], parse) == Decoded(Ok(sigpvec), diagnostics)
    {
      assert toks[..k + 1][..k] == toks[..k];
      var sv := Split(toks[k], ':');
      if |sv| != 4 {
        diagnostics := diagnostics + [|sv|];
      }
      var s := DecodeFields(sv, parse);
      if s.Err? {
        FailureStops(toks, k + 1, parse);
        return Decoded(Err(s.error), diagnostics);
      }
      sigpvec := sigpvec + [s.value];
      k := k + 1;
    }
    assert toks[..k] == toks;
    d := Decoded(Ok(sigpvec), diagnostics);
  }
}
