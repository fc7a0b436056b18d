/**
 * Onset detection: the onset-function table and the onset object, which
 * owns a native handle, checks view sizes before each native call and
 * forwards its parameters to the native setters.
 */
module Onset {
  import opened Types
  import opened Native
  import opened Vec
  import opened Macros

  /** The onset detection functions. */
  datatype OnsetMode = Energy | Hfc | Complex | Phase | WPhase | SpecDiff | Kl | Mkl | SpecFlux {

    /** `as_ref`: the plain name, written without a terminator. */
    function Name(): (s: string)
      ensures |s| > 0 && '\0' !in s
    {
      match this
      case Energy => "energy"
      case Hfc => "hfc"
      case Complex => "complex"
      case Phase => "phase"
      case WPhase => "wphase"
      case Mkl => "mkl"
      case Kl => "kl"
      case SpecFlux => "specflux"
      case SpecDiff => "specdiff"
    }

    /** `func_name`, the spectral-function name: the same string as `as_ref`. */
    function FuncName(): (s: string)
      ensures s == Name()
    {
      Name()
    }

    /** `from_str`: the mode with the given name, or `InvalidArg` for any other string. */
    static function FromStr(src: string): (r: Result<OnsetMode>)
      ensures r.Ok? ==> r.value.Name() == src
      ensures r.Err? <==> forall m: OnsetMode :: m.Name() != src
      ensures r.Err? ==> r.error == InvalidArg
    {
      if src == "energy" then Ok(Energy)
      else if src == "hfc" then Ok(Hfc)
      else if src == "complex" then Ok(Complex)
      else if src == "phase" then Ok(Phase)
      else if src == "wphase" then Ok(WPhase)
      else if src == "mkl" then Ok(Mkl)
      else if src == "kl" then Ok(Kl)
      else if src == "specflux" then Ok(SpecFlux)
      else if src == "specdiff" then Ok(SpecDiff)
      else Err(InvalidArg)
    }
  }

  /** The default onset function. */
  const DefaultMode: OnsetMode := Hfc

  /** The default mode is the one named "hfc", and that name parses back to it. */
  lemma DefaultModeName()
    ensures DefaultMode.Name() == "hfc" && OnsetMode.FromStr("hfc") == Ok(DefaultMode)
  {
  }

  /** No two modes share a name. */
  lemma NameInjective(a: OnsetMode, b: OnsetMode)
    ensures a.Name() == b.Name() ==> a == b
  {
  }

  /** Parsing a mode's name gives the mode back. */
  lemma NameRoundTrip(m: OnsetMode)
    ensures OnsetMode.FromStr(m.Name()) == Ok(m)
  {
    NameInjective(OnsetMode.FromStr(m.Name()).value, m);
  }

  /**
   * The terminated native name the callers of the other revision rely on
   * when they pass an onset mode as a native string. No implementation of
   * it is among the sources; it is taken to follow the terminator rule of
   * the native-string trait: the plain name followed by the terminator.
   */
  function NativeStr(m: OnsetMode): (s: string)
    ensures Terminated(s) && AsRustStr(s) == m.Name()
  {
    m.Name() + "\0"
  }

  /** The native creation call; the method name is passed as a pointer into the unterminated literal. */
  function NewCall(mode: OnsetMode, bufSize: nat, hopSize: nat, sampleRate: nat): (c: Call)
    ensures c.Invoke? && |c.args| == 4
    ensures c.args[0] == CStr(mode.Name())
    ensures CastSizes(c.args[1..], [bufSize, hopSize, sampleRate])
  {
    var sizes := UIntArgs([bufSize, hopSize, sampleRate]);
    assert ([CStr(mode.Name())] + sizes)[1..] == sizes;
    Invoke("new_aubio_onset", [CStr(mode.Name())] + sizes)
  }

  /**
   * The method name handed to the native constructor (and to
   * `set_default_parameters`) holds no terminator, so a C reader runs past
   * the end of the literal for every mode.
   */
  lemma MethodNameUnterminated(mode: OnsetMode, bufSize: nat, hopSize: nat, sampleRate: nat)
    ensures CStringAt(NewCall(mode, bufSize, hopSize, sampleRate).args[0].bytes).None?
    ensures CStringAt(NativeStr(mode)) == Some(mode.Name())
  {
    NativeNameReadsAsRustName(NativeStr(mode));
  }

  /** The native value `set_awhitening` sends for a flag: 1 when enabled, 0 otherwise. */
  function Flag(enable: bool): (n: nat)
    ensures n <= 1 && (n == 1 <==> enable)
  {
    if enable then 1 else 0
  }

  /** `get_awhitening`: the flag is on when the native value is positive. */
  function GetAwhitening(native: real): (on: bool)
    ensures on <==> native > 0.0
  {
    0.0 < native
  }

  /** A flag sent with `set_awhitening` and read back unchanged by the native layer is the flag set. */
  lemma AwhiteningRoundTrip(enable: bool)
    ensures GetAwhitening(Flag(enable) as real) == enable
  {
  }

  /** The parameters of an onset object, one per native setter. */
  datatype Param =
    | Awhitening(enable: bool)
    | Compression(lambda: real)
    | Silence(silence: real)
    | Threshold(threshold: real)
    | Minioi(samples: nat)
    | MinioiS(seconds: real)
    | MinioiMs(millis: real)
    | Delay(samples: nat)
    | DelayS(seconds: real)
    | DelayMs(millis: real)
  {
    /**
     * The native call a setter makes: the flag as 1 or 0, sample counts
     * truncated to the native unsigned width, other values unchanged.
     */
    function Call(): (c: Call)
      ensures c.Invoke? && |c.args| == 1
      ensures this.Awhitening? ==> c.args[0] == UInt(Flag(enable))
      ensures this.Minioi? ==> c.args[0] == UInt(AsUint(samples))
      ensures this.Delay? ==> c.args[0] == UInt(AsUint(samples))
      ensures !this.Awhitening? && !this.Minioi? && !this.Delay? ==> c.args[0].Float?
    {
      match this
      case Awhitening(enable) => Invoke("aubio_onset_set_awhitening", [UInt(Flag(enable))])
      case Compression(lambda) => Invoke("aubio_onset_set_compression", [Float(lambda)])
      case Silence(silence) => Invoke("aubio_onset_set_silence", [Float(silence)])
      case Threshold(threshold) => Invoke("aubio_onset_set_threshold", [Float(threshold)])
      case Minioi(samples) => Invoke("aubio_onset_set_minioi", [UInt(AsUint(samples))])
      case MinioiS(seconds) => Invoke("aubio_onset_set_minioi_s", [Float(seconds)])
      case MinioiMs(millis) => Invoke("aubio_onset_set_minioi_ms", [Float(millis)])
      case Delay(samples) => Invoke("aubio_onset_set_delay", [UInt(AsUint(samples))])
      case DelayS(seconds) => Invoke("aubio_onset_set_delay_s", [Float(seconds)])
      case DelayMs(millis) => Invoke("aubio_onset_set_delay_ms", [Float(millis)])
    }
  }

  /** The native call of one detection step. */
  const DoCall: Call := Invoke("aubio_onset_do", [])

  /** Onset detection object owning one native handle. */
  class Onset {
    /** The hop size the handle reports (read through the phase-vocoder accessor). */
    const hop: nat
    /** The calls made on the handle so far, its creation first. */
    ghost var calls: seq<Call>

    ghost predicate Valid()
      reads this
    {
      Disciplined(calls)
    }

    /** The handle has not been released. */
    ghost predicate Live()
      reads this
    {
      Native.Live(calls)
    }

    constructor Wrap(hop: nat, created: Call)
      requires created.Invoke?
      ensures this.hop == hop && calls == [created]
      ensures Valid() && Live()
    {
      this.hop := hop;
      calls := [created];
    }

    /**
     * `new`: a null handle is a creation failure; otherwise the object owns
     * the handle, whose hop is `nativeHop`.
     */
    static method New(mode: OnsetMode, bufSize: nat, hopSize: nat, sampleRate: nat, native: Ptr, nativeHop: nat)
      returns (r: Result<Onset>)
      ensures r.Err? <==> native.Null?
      ensures r.Err? ==> r.error == FailedInit
      ensures r.Ok? ==> fresh(r.value) && r.value.Valid() && r.value.Live()
      ensures r.Ok? ==> r.value.hop == nativeHop && r.value.calls == [NewCall(mode, bufSize, hopSize, sampleRate)]
    {
      var status := CheckInit(native);
      if status.Err? {
        return Err(status.error);
      }
      var o := new Onset.Wrap(nativeHop, NewCall(mode, bufSize, hopSize, sampleRate));
      return Ok(o);
    }

    /**
     * `get_hop`: the wrapper reads the onset handle as a phase vocoder
     * handle to ask for its hop, so the value is whatever the native side
     * reports, which construction fixed as `nativeHop`.
     */
    function GetHop(): (h: nat)
      ensures h == hop
    {
      hop
    }

    /**
     * `do_`: the input must hold a hop and the output one value, checked in
     * that order before the native step; a rejected call changes nothing.
     */
    method Do(input: FVec, output: FVecMut) returns (r: Status)
      requires Valid() && Live() && output.Sound()
      modifies this, output.data.buf
      ensures r == Then(input.CheckSize(hop), output.CheckSize(1))
      ensures Valid() && Live()
      ensures r.Err? ==> calls == old(calls) && unchanged(output.data.buf)
      ensures r.Ok? ==> calls == old(calls) + [DoCall]
      ensures r.Ok? ==> SameOutside(old(output.data.buf[..]), output.data.buf[..], output.data.start, output.length)
    {
      var checkIn := input.CheckSize(hop);
      if checkIn.Err? {
        return checkIn;
      }
      var checkOut := output.CheckSize(1);
      if checkOut.Err? {
        return checkOut;
      }
      Append(calls, DoCall);
      calls := calls + [DoCall];
      WriteReal(output);
      return Ok(());
    }

    /** `do_result`: one detection step into a zeroed one-slot buffer; the slot on success. */
    method DoResult(input: FVec) returns (r: Result<real>)
      requires Valid() && Live()
      modifies this
      ensures Valid() && Live()
      ensures r.Err? <==> input.CheckSize(hop).Err?
      ensures r.Err? ==> r.error == MismatchSize && calls == old(calls)
      ensures r.Ok? ==> calls == old(calls) + [DoCall]
    {
      var slot := NewBuffer(Farr(1));
      var status := Do(input, FVecMut.From(Whole(slot)));
      if status.Err? {
        return Err(status.error);
      }
      return Ok(slot[0]);
    }

    /** The `set_*` setters: one native call each. */
    method Set(p: Param)
      requires Valid() && Live()
      modifies this
      ensures Valid() && Live()
      ensures calls == old(calls) + [p.Call()]
    {
      Append(calls, p.Call());
      calls := calls + [p.Call()];
    }

    /** The `with_*` builders: the setter, then the same object. */
    method With(p: Param) returns (self: Onset)
      requires Valid() && Live()
      modifies this
      ensures self == this && Valid() && Live()
      ensures calls == old(calls) + [p.Call()]
    {
      Set(p);
      return this;
    }

    /** `set_default_parameters`: the mode's name, unterminated, to the native layer. */
    method SetDefaultParameters(mode: OnsetMode)
      requires Valid() && Live()
      modifies this
      ensures Valid() && Live()
      ensures calls == old(calls) + [Invoke("aubio_onset_set_default_parameters", [CStr(mode.Name())])]
    {
      var c := Invoke("aubio_onset_set_default_parameters", [CStr(mode.Name())]);
      Append(calls, c);
      calls := calls + [c];
    }

    /** `reset`. */
    method Reset()
      requires Valid() && Live()
      modifies this
      ensures Valid() && Live()
      ensures calls == old(calls) + [Invoke("aubio_onset_reset", [])]
    {
      var c := Invoke("aubio_onset_reset", []);
      Append(calls, c);
      calls := calls + [c];
    }

    /** `Drop`: the handle is released, after which no method can be called. */
    method Drop()
      requires Valid() && Live()
      modifies this
      ensures Valid() && !Live()
      ensures calls == old(calls) + [Delete]
    {
      Append(calls, Delete);
      calls := calls + [Delete];
    }
  }
}
