/**
 * The FFT object and the spectrum converters: each operation checks its
 * views against the window size (or against each other) before the
 * native transform, and leaves every buffer untouched when a check fails.
 */
module Fft {
  import opened Types
  import opened Native
  import opened Vec
  import opened Macros

  /** Number of bins in the spectrum of a `win`-sample frame. */
  function SpectrumBins(win: nat): (n: nat)
    ensures n > 0 && 2 * (n - 1) <= win < 2 * n
  {
    win / 2 + 1
  }

  /** The native creation call. */
  function NewCall(winSize: nat): (c: Call)
    ensures c.Invoke? && CastSizes(c.args, [winSize])
  {
    Invoke("new_aubio_fft", UIntArgs([winSize]))
  }

  /** The native transforms. */
  const DoCall: Call := Invoke("aubio_fft_do", [])
  const RdoCall: Call := Invoke("aubio_fft_rdo", [])
  const DoComplexCall: Call := Invoke("aubio_fft_do_complex", [])
  const RdoComplexCall: Call := Invoke("aubio_fft_rdo_complex", [])

  /** FFT object owning one native handle. */
  class FFT {
    /** The window size given at creation. */
    const winSize: nat
    /** The calls made on the handle so far, its creation first. */
    ghost var calls: seq<Call>

    ghost predicate Valid()
      reads this
    {
      Disciplined(calls)
    }

    /** The handle has not been released. */
    ghost predicate Live()
      reads this
    {
      Native.Live(calls)
    }

    constructor Wrap(winSize: nat, created: Call)
      requires created.Invoke?
      ensures this.winSize == winSize && calls == [created]
      ensures Valid() && Live()
    {
      this.winSize := winSize;
      calls := [created];
    }

    /** `new`: a null handle is a creation failure; otherwise the object keeps the window size. */
    static method New(winSize: nat, native: Ptr) returns (r: Result<FFT>)
      ensures r.Err? <==> native.Null?
      ensures r.Err? ==> r.error == FailedInit
      ensures r.Ok? ==> fresh(r.value) && r.value.Valid() && r.value.Live()
      ensures r.Ok? ==> r.value.winSize == winSize && r.value.calls == [NewCall(winSize)]
    {
      var status := CheckInit(native);
      if status.Err? {
        return Err(status.error);
      }
      var f := new FFT.Wrap(winSize, NewCall(winSize));
      return Ok(f);
    }

    /** `get_win`: the window size given at creation. */
    function GetWin(): (w: nat)
      ensures w == winSize
    {
      winSize
    }

    /** `get_fft`: the number of spectrum bins for the window. */
    function GetFft(): (n: nat)
      ensures n == SpectrumBins(winSize)
    {
      GetWin() / 2 + 1
    }

    /**
     * `do_`: the input and the spectrum must both reach the window size
     * (the spectrum counted in bins), checked before the transform.
     */
    method Do(input: FVec, spectrum: CVecMut) returns (r: Status)
      requires Valid() && Live() && spectrum.Sound()
      modifies this, spectrum.Arrays()
      ensures r == Then(input.CheckSize(winSize), spectrum.CheckSize(winSize))
      ensures Valid() && Live()
      ensures r.Err? ==> calls == old(calls) && forall a :: a in spectrum.Arrays() ==> unchanged(a)
      ensures r.Ok? ==> calls == old(calls) + [DoCall]
      ensures r.Ok? ==> forall a, i :: a in spectrum.Arrays() && 0 <= i < a.Length && !spectrum.InWindow(a, i) ==> a[i] == old(a[i])
    {
      var checkIn := input.CheckSize(GetWin());
      if checkIn.Err? {
        return checkIn;
      }
      var checkOut := spectrum.CheckSize(GetWin());
      if checkOut.Err? {
        return checkOut;
      }
      Append(calls, DoCall);
      calls := calls + [DoCall];
      WriteComplex(spectrum);
      return Ok(());
    }

    /** `rdo`: the spectrum (in bins) and the output must both reach the window size. */
    method Rdo(spectrum: CVec, output: FVecMut) returns (r: Status)
      requires Valid() && Live() && output.Sound()
      modifies this, output.data.buf
      ensures r == Then(spectrum.CheckSize(winSize), output.CheckSize(winSize))
      ensures Valid() && Live()
      ensures r.Err? ==> calls == old(calls) && unchanged(output.data.buf)
      ensures r.Ok? ==> calls == old(calls) + [RdoCall]
      ensures r.Ok? ==> SameOutside(old(output.data.buf[..]), output.data.buf[..], output.data.start, output.length)
    {
      var checkIn := spectrum.CheckSize(GetWin());
      if checkIn.Err? {
        return checkIn;
      }
      var checkOut := output.CheckSize(GetWin());
      if checkOut.Err? {
        return checkOut;
      }
      Append(calls, RdoCall);
      calls := calls + [RdoCall];
      WriteReal(output);
      return Ok(());
    }

    /** `do_complex`: input and interleaved complex output must both reach the window size. */
    method DoComplex(input: FVec, compspec: FVecMut) returns (r: Status)
      requires Valid() && Live() && compspec.Sound()
      modifies this, compspec.data.buf
      ensures r == Then(input.CheckSize(winSize), compspec.CheckSize(winSize))
      ensures Valid() && Live()
      ensures r.Err? ==> calls == old(calls) && unchanged(compspec.data.buf)
      ensures r.Ok? ==> calls == old(calls) + [DoComplexCall]
      ensures r.Ok? ==> SameOutside(old(compspec.data.buf[..]), compspec.data.buf[..], compspec.data.start, compspec.length)
    {
      var checkIn := input.CheckSize(GetWin());
      if checkIn.Err? {
        return checkIn;
      }
      var checkOut := compspec.CheckSize(GetWin());
      if checkOut.Err? {
        return checkOut;
      }
      Append(calls, DoComplexCall);
      calls := calls + [DoComplexCall];
      WriteReal(compspec);
      return Ok(());
    }

    /** `rdo_complex`: complex input and output must both reach the window size. */
    method RdoComplex(compspec: FVec, output: FVecMut) returns (r: Status)
      requires Valid() && Live() && output.Sound()
      modifies this, output.data.buf
      ensures r == Then(compspec.CheckSize(winSize), output.CheckSize(winSize))
      ensures Valid() && Live()
      ensures r.Err? ==> calls == old(calls) && unchanged(output.data.buf)
      ensures r.Ok? ==> calls == old(calls) + [RdoComplexCall]
      ensures r.Ok? ==> SameOutside(old(output.data.buf[..]), output.data.buf[..], output.data.start, output.length)
    {
      var checkIn := compspec.CheckSize(GetWin());
      if checkIn.Err? {
        return checkIn;
      }
      var checkOut := output.CheckSize(GetWin());
      if checkOut.Err? {
        return checkOut;
      }
      Append(calls, RdoComplexCall);
      calls := calls + [RdoComplexCall];
      WriteReal(output);
      return Ok(());
    }

    /** `Drop`: the handle is released, after which no method can be called. */
    method Drop()
      requires Valid() && Live()
      modifies this
      ensures Valid() && !Live()
      ensures calls == old(calls) + [Delete]
    {
      Append(calls, Delete);
      calls := calls + [Delete];
    }
  }

  /** `get_spectrum`: the polar output needs as many bins as the interleaved input has samples. */
  method GetSpectrum(compspec: FVec, spectrum: CVecMut) returns (r: Status)
    requires spectrum.Sound()
    modifies spectrum.Arrays()
    ensures r == spectrum.CheckSize(compspec.Size())
    ensures r.Err? ==> forall a :: a in spectrum.Arrays() ==> unchanged(a)
    ensures r.Ok? ==> forall a, i :: a in spectrum.Arrays() && 0 <= i < a.Length && !spectrum.InWindow(a, i) ==> a[i] == old(a[i])
  {
    r := spectrum.CheckSize(compspec.Size());
    if r.Ok? {
      WriteComplex(spectrum);
    }
  }

  /** `get_realimag`: the interleaved output needs as many samples as the input has bins. */
  method GetRealimag(spectrum: CVec, compspec: FVecMut) returns (r: Status)
    requires compspec.Sound()
    modifies compspec.data.buf
    ensures r == compspec.CheckSize(spectrum.Size())
    ensures r.Err? ==> unchanged(compspec.data.buf)
    ensures r.Ok? ==> SameOutside(old(compspec.data.buf[..]), compspec.data.buf[..], compspec.data.start, compspec.length)
  {
    r := compspec.CheckSize(spectrum.Size());
    if r.Ok? {
      WriteReal(compspec);
    }
  }

  /** `get_phas`: the phase-only output needs as many bins as the input has samples. */
  method GetPhas(compspec: FVec, phas: CVecPhasMut) returns (r: Status)
    requires phas.cvec.Sound()
    modifies phas.cvec.Arrays()
    ensures r == phas.cvec.CheckSize(compspec.Size())
    ensures r.Err? ==> forall a :: a in phas.cvec.Arrays() ==> unchanged(a)
    ensures r.Ok? ==> forall a, i :: a in phas.cvec.Arrays() && 0 <= i < a.Length && !phas.cvec.InWindow(a, i) ==> a[i] == old(a[i])
  {
    r := phas.cvec.CheckSize(compspec.Size());
    if r.Ok? {
      WriteComplex(phas.cvec);
    }
  }

  /** `get_norm`: the norm-only output needs as many bins as the input has samples. */
  method GetNorm(compspec: FVec, norm: CVecNormMut) returns (r: Status)
    requires norm.cvec.Sound()
    modifies norm.cvec.Arrays()
    ensures r == norm.cvec.CheckSize(compspec.Size())
    ensures r.Err? ==> forall a :: a in norm.cvec.Arrays() ==> unchanged(a)
    ensures r.Ok? ==> forall a, i :: a in norm.cvec.Arrays() && 0 <= i < a.Length && !norm.cvec.InWindow(a, i) ==> a[i] == old(a[i])
  {
    r := norm.cvec.CheckSize(compspec.Size());
    if r.Ok? {
      WriteComplex(norm.cvec);
    }
  }

  /** `get_imag`: the output needs as many samples as the input has bins. */
  method GetImag(spectrum: CVec, compspec: FVecMut) returns (r: Status)
    requires compspec.Sound()
    modifies compspec.data.buf
    ensures r == compspec.CheckSize(spectrum.Size())
    ensures r.Err? ==> unchanged(compspec.data.buf)
    ensures r.Ok? ==> SameOutside(old(compspec.data.buf[..]), compspec.data.buf[..], compspec.data.start, compspec.length)
  {
    r := compspec.CheckSize(spectrum.Size());
    if r.Ok? {
      WriteReal(compspec);
    }
  }

  /** `get_real`: the output needs as many samples as the input has bins. */
  method GetReal(spectrum: CVec, compspec: FVecMut) returns (r: Status)
    requires compspec.Sound()
    modifies compspec.data.buf
    ensures r == compspec.CheckSize(spectrum.Size())
    ensures r.Err? ==> unchanged(compspec.data.buf)
    ensures r.Ok? ==> SameOutside(old(compspec.data.buf[..]), compspec.data.buf[..], compspec.data.start, compspec.length)
  {
    r := compspec.CheckSize(spectrum.Size());
    if r.Ok? {
      WriteReal(compspec);
    }
  }

  /**
   * The forward transform measures its spectrum against the window size
   * in bins, but a `win`-sample frame has only `get_fft` bins: for a window
   * of 4 samples or more, the spectrum the object itself describes, in a
   * `carr!(win)` buffer, fails the check.
   */
  lemma OwnSpectrumRejected(win: nat, spectrum: Slice)
    requires win % 2 == 0 && win >= 4 && win + 2 < U32Limit
    requires spectrum.Valid() && spectrum.len == |Carr(win)|
    ensures CVecMut.From(spectrum).Size() == SpectrumBins(win) < win
    ensures CVecMut.From(spectrum).CheckSize(win) == (if CheckSizeFeature then Err(MismatchSize) else Ok(()))
  {
  }

  /** The inverse transform refuses a `carr!(win)` spectrum the same way, before any native call. */
  method RdoFrameSpectrum(f: FFT, output: FVecMut) returns (r: Status)
    requires f.Valid() && f.Live() && output.Sound()
    requires f.winSize % 2 == 0 && f.winSize >= 4 && f.winSize + 2 < U32Limit
    modifies f, output.data.buf
    ensures CheckSizeFeature ==> r == Err(MismatchSize) && f.calls == old(f.calls) && unchanged(output.data.buf)
  {
    CarrBelowWindow(f.winSize);
    r := f.Rdo(CVec.From(Carr(f.winSize)), output);
  }
}
