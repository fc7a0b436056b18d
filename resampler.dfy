/**
 * Resampling: the resample-mode table with its numeric codes, and the
 * resampler object, which keeps its ratio and checks only the output size.
 */
module Resampler {
  import opened Types
  import opened Native
  import opened Vec

  /** The resampling methods, with the numeric codes the native layer takes. */
  datatype ResampleMode = BestQuality | MediumQuality | Fastest | OrderHold | Linear {

    /** `mode as uint_t`: the enumeration's code. */
    function Code(): (c: nat)
      ensures c < 5
    {
      match this
      case BestQuality => 0
      case MediumQuality => 1
      case Fastest => 2
      case OrderHold => 3
      case Linear => 4
    }

    /** `as_ref`: the plain name. */
    function Name(): (s: string)
      ensures |s| > 0 && '\0' !in s
    {
      match this
      case BestQuality => "best_quality"
      case MediumQuality => "medium_quality"
      case Fastest => "fastest"
      case OrderHold => "order_hold"
      case Linear => "linear"
    }

    /** `from_str`: the mode with the given name, or `InvalidArg`. */
    static function FromStr(src: string): (r: Result<ResampleMode>)
      ensures r.Ok? ==> r.value.Name() == src
      ensures r.Err? <==> forall m: ResampleMode :: m.Name() != src
      ensures r.Err? ==> r.error == InvalidArg
    {
      if src == "best_quality" then Ok(BestQuality)
      else if src == "medium_quality" then Ok(MediumQuality)
      else if src == "fastest" then Ok(Fastest)
      else if src == "order_hold" then Ok(OrderHold)
      else if src == "linear" then Ok(Linear)
      else Err(InvalidArg)
    }
  }

  /** The default resampling method. */
  const DefaultMode: ResampleMode := BestQuality

  /**
   * The default mode is the best-quality converter: libsamplerate's code 0,
   * named "best_quality", and that name parses back to it.
   */
  lemma DefaultModeName()
    ensures DefaultMode.Code() == 0 && DefaultMode.Name() == "best_quality"
    ensures ResampleMode.FromStr("best_quality") == Ok(DefaultMode)
  {
  }

  /** The modes carry the codes 0 to 4 in declaration order, no two alike. */
  lemma CodesDistinct(a: ResampleMode, b: ResampleMode)
    ensures a.Code() == b.Code() ==> a == b
    ensures [BestQuality.Code(), MediumQuality.Code(), Fastest.Code(), OrderHold.Code(), Linear.Code()] == [0, 1, 2, 3, 4]
  {
  }

  /** No two modes share a name. */
  lemma NameInjective(a: ResampleMode, b: ResampleMode)
    ensures a.Name() == b.Name() ==> a == b
  {
  }

  /** Parsing a mode's name gives it back. */
  lemma NameRoundTrip(m: ResampleMode)
    ensures ResampleMode.FromStr(m.Name()) == Ok(m)
  {
    NameInjective(ResampleMode.FromStr(m.Name()).value, m);
  }

  /**
   * The output length `do_` demands: the input length times the ratio,
   * rounded down, as a `usize` (a negative product saturates to 0).
   */
  function RequiredOutput(inputLen: nat, ratio: real): (n: nat)
    ensures 0.0 <= inputLen as real * ratio ==> n as real <= inputLen as real * ratio < n as real + 1.0
    ensures inputLen as real * ratio < 0.0 ==> n == 0
  {
    var product := inputLen as real * ratio;
    if product < 0.0 then 0 else product.Floor
  }

  /** A ratio of 1 asks for as many output samples as there are input samples. */
  lemma UnitRatioKeepsLength(inputLen: nat)
    ensures RequiredOutput(inputLen, 1.0) == inputLen
  {
  }

  /** The native creation call: the ratio and the mode's code. */
  function NewCall(ratio: real, mode: ResampleMode): (c: Call)
    ensures c.Invoke? && c.args == [Float(ratio), UInt(mode.Code())]
  {
    Invoke("new_aubio_resampler", [Float(ratio), UInt(AsUint(mode.Code()))])
  }

  /** The native call of one resampling step. */
  const DoCall: Call := Invoke("aubio_resampler_do", [])

  /** Resampler object owning one native handle. */
  class Resampler {
    /** The ratio given at creation. */
    const ratio: real
    /** The calls made on the handle so far, its creation first. */
    ghost var calls: seq<Call>

    ghost predicate Valid()
      reads this
    {
      Disciplined(calls)
    }

    /** The handle has not been released. */
    ghost predicate Live()
      reads this
    {
      Native.Live(calls)
    }

    constructor Wrap(ratio: real, created: Call)
      requires created.Invoke?
      ensures this.ratio == ratio && calls == [created]
      ensures Valid() && Live()
    {
      this.ratio := ratio;
      calls := [created];
    }

    /** `new`: a null handle is a creation failure; otherwise the object keeps the ratio. */
    static method New(ratio: real, mode: ResampleMode, native: Ptr) returns (r: Result<Resampler>)
      ensures r.Err? <==> native.Null?
      ensures r.Err? ==> r.error == FailedInit
      ensures r.Ok? ==> fresh(r.value) && r.value.Valid() && r.value.Live()
      ensures r.Ok? ==> r.value.ratio == ratio && r.value.calls == [NewCall(ratio, mode)]
    {
      var status := CheckInit(native);
      if status.Err? {
        return Err(status.error);
      }
      var o := new Resampler.Wrap(ratio, NewCall(ratio, mode));
      return Ok(o);
    }

    /** `get_ratio`: the ratio given at creation. */
    function GetRatio(): (x: real)
      ensures x == ratio
    {
      ratio
    }

    /**
     * `do_`: only the output is checked, against the input length times
     * the ratio; the input is never checked.
     */
    method Do(input: FVec, output: FVecMut) returns (r: Status)
      requires Valid() && Live() && output.Sound()
      modifies this, output.data.buf
      ensures r == output.CheckSize(RequiredOutput(input.Size(), ratio))
      ensures Valid() && Live()
      ensures r.Err? ==> calls == old(calls) && unchanged(output.data.buf)
      ensures r.Ok? ==> calls == old(calls) + [DoCall]
      ensures r.Ok? ==> SameOutside(old(output.data.buf[..]), output.data.buf[..], output.data.start, output.length)
    {
      var check := output.CheckSize(RequiredOutput(input.Size(), GetRatio()));
      if check.Err? {
        return check;
      }
      Append(calls, DoCall);
      calls := calls + [DoCall];
      WriteReal(output);
      return Ok(());
    }

    /** `Drop`: the handle is released, after which no method can be called. */
    method Drop()
      requires Valid() && Live()
      modifies this
      ensures Valid() && !Live()
      ensures calls == old(calls) + [Delete]
    {
      Append(calls, Delete);
      calls := calls + [Delete];
    }
  }
}
