/**
 * Mel-frequency cepstrum coefficients: the object keeps the buffer size
 * and the number of coefficients, checks a spectrum of `buf_size` bins
 * and an output of `n_coeffs` values per step, and forwards its filter
 * bank settings to the native layer.
 */
module Mfcc {
  import opened Types
  import opened Native
  import opened Vec
  import opened Macros

  /** The native creation call; the filter count is passed on but not kept. */
  function NewCall(bufSize: nat, nFilters: nat, nCoeffs: nat, sampleRate: nat): (c: Call)
    ensures c.Invoke?
    ensures CastSizes(c.args, [bufSize, nFilters, nCoeffs, sampleRate])
  {
    Invoke("new_aubio_mfcc", UIntArgs([bufSize, nFilters, nCoeffs, sampleRate]))
  }

  /** The settings forwarded through `set_*` and the `with_*` builders. */
  datatype Param =
    | Power(power: real)
    | Scale(scale: real)
    | MelCoeffs(fmin: real, fmax: real)
    | MelCoeffsHtk(fmin: real, fmax: real)
    | MelCoeffsSlaney
  {
    /** The native call a setter makes, its arguments in the caller's order. */
    function Call(): (c: Call)
      ensures c.Invoke?
      ensures this.Power? ==> c.args == [Float(power)]
      ensures this.Scale? ==> c.args == [Float(scale)]
      ensures this.MelCoeffs? || this.MelCoeffsHtk? ==> c.args == [Float(fmin), Float(fmax)]
      ensures this.MelCoeffsSlaney? ==> c.args == []
    {
      match this
      case Power(power) => Invoke("aubio_mfcc_set_power", [Float(power)])
      case Scale(scale) => Invoke("aubio_mfcc_set_scale", [Float(scale)])
      case MelCoeffs(fmin, fmax) => Invoke("aubio_mfcc_set_mel_coeffs", [Float(fmin), Float(fmax)])
      case MelCoeffsHtk(fmin, fmax) => Invoke("aubio_mfcc_set_mel_coeffs_htk", [Float(fmin), Float(fmax)])
      case MelCoeffsSlaney => Invoke("aubio_mfcc_set_mel_coeffs_slaney", [])
    }
  }

  /**
   * Different settings make different native calls: each setter has its
   * own routine and forwards its values unchanged, so the call made
   * identifies the setting.
   */
  lemma CallInjective(a: Param, b: Param)
    ensures a.Call() == b.Call() <==> a == b
  {
  }

  /** The native call of one coefficient computation. */
  const DoCall: Call := Invoke("aubio_mfcc_do", [])

  /** MFCC object owning one native handle. */
  class MFCC {
    /** The buffer size given at creation. */
    const bufSize: nat
    /** The number of coefficients given at creation. */
    const nCoeffs: nat
    /** The calls made on the handle so far, its creation first. */
    ghost var calls: seq<Call>

    ghost predicate Valid()
      reads this
    {
      Disciplined(calls)
    }

    /** The handle has not been released. */
    ghost predicate Live()
      reads this
    {
      Native.Live(calls)
    }

    constructor Wrap(bufSize: nat, nCoeffs: nat, created: Call)
      requires created.Invoke?
      ensures this.bufSize == bufSize && this.nCoeffs == nCoeffs && calls == [created]
      ensures Valid() && Live()
    {
      this.bufSize := bufSize;
      this.nCoeffs := nCoeffs;
      calls := [created];
    }

    /** `new`: a null handle is a creation failure; otherwise the object keeps both sizes. */
    static method New(bufSize: nat, nFilters: nat, nCoeffs: nat, sampleRate: nat, native: Ptr) returns (r: Result<MFCC>)
      ensures r.Err? <==> native.Null?
      ensures r.Err? ==> r.error == FailedInit
      ensures r.Ok? ==> fresh(r.value) && r.value.Valid() && r.value.Live()
      ensures r.Ok? ==> r.value.bufSize == bufSize && r.value.nCoeffs == nCoeffs
      ensures r.Ok? ==> r.value.calls == [NewCall(bufSize, nFilters, nCoeffs, sampleRate)]
    {
      var status := CheckInit(native);
      if status.Err? {
        return Err(status.error);
      }
      var m := new MFCC.Wrap(bufSize, nCoeffs, NewCall(bufSize, nFilters, nCoeffs, sampleRate));
      return Ok(m);
    }

    /** `do_`: a spectrum of `buf_size` bins and `n_coeffs` output values, checked in that order. */
    method Do(input: CVec, output: FVecMut) returns (r: Status)
      requires Valid() && Live() && output.Sound()
      modifies this, output.data.buf
      ensures r == Then(input.CheckSize(bufSize), output.CheckSize(nCoeffs))
      ensures Valid() && Live()
      ensures r.Err? ==> calls == old(calls) && unchanged(output.data.buf)
      ensures r.Ok? ==> calls == old(calls) + [DoCall]
      ensures r.Ok? ==> SameOutside(old(output.data.buf[..]), output.data.buf[..], output.data.start, output.length)
    {
      var checkIn := input.CheckSize(bufSize);
      if checkIn.Err? {
        return checkIn;
      }
      var checkOut := output.CheckSize(nCoeffs);
      if checkOut.Err? {
        return checkOut;
      }
      Append(calls, DoCall);
      calls := calls + [DoCall];
      WriteReal(output);
      return Ok(());
    }

    /** `set_*`: the setting goes to the native layer. */
    method Set(p: Param)
      requires Valid() && Live()
      modifies this
      ensures Valid() && Live()
      ensures calls == old(calls) + [p.Call()]
    {
      Append(calls, p.Call());
      calls := calls + [p.Call()];
    }

    /** The `with_*` builders: the setter, then the same object. */
    method With(p: Param) returns (self: MFCC)
      requires Valid() && Live()
      modifies this
      ensures self == this && Valid() && Live()
      ensures calls == old(calls) + [p.Call()]
    {
      Set(p);
      return this;
    }

    /** `Drop`: the handle is released, after which no method can be called. */
    method Drop()
      requires Valid() && Live()
      modifies this
      ensures Valid() && !Live()
      ensures calls == old(calls) + [Delete]
    {
      Append(calls, Delete);
      calls := calls + [Delete];
    }
  }

  /**
   * The spectrum is measured in bins against the buffer size, yet a
   * `buf_size`-sample frame has only `buf_size / 2 + 1` bins: with the size
   * check on, a step on a `carr!(buf_size)` spectrum is refused for every
   * even buffer of 4 samples or more, and nothing is computed.
   */
  method FrameSpectrumStep(m: MFCC, output: FVecMut) returns (r: Status)
    requires m.Valid() && m.Live() && output.Sound()
    requires m.bufSize % 2 == 0 && m.bufSize >= 4 && m.bufSize + 2 < U32Limit
    modifies m, output.data.buf
    ensures CheckSizeFeature ==> r == Err(MismatchSize) && m.calls == old(m.calls) && unchanged(output.data.buf)
  {
    CarrBelowWindow(m.bufSize);
    r := m.Do(CVec.From(Carr(m.bufSize)), output);
  }
}
