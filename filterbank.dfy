/**
 * The spectral filter bank: a matrix of `n_filters` rows of
 * `win_s / 2 + 1` coefficients held by the native handle. Unlike the other
 * objects, a size mismatch here is a panic, not an error value.
 */
module FilterBank {
  import opened Types
  import opened Native
  import opened Vec
  import opened Macros
  import Fft

  /** How a call ends: it returns a value, or it panics with a message. */
  datatype Outcome<T> = Returned(value: T) | Panicked(message: string)

  /** The panic message of `set_coeffs`. */
  const CoeffPanic: string := "Invalid FilterBank coeff size"
  /** The panic message of `do_`. */
  const DoPanic: string := "Invalid output or input size for FilterBank"

  /** A coefficient matrix: rows of one common length. */
  datatype FMat = FMat(rows: seq<seq<real>>) {
    ghost predicate Rectangular() {
      forall i, j :: 0 <= i < j < |rows| ==> |rows[i]| == |rows[j]|
    }

    /** The number of rows. */
    function Height(): (h: nat)
      ensures h == |rows|
    {
      |rows|
    }

    /** The common row length (0 for a matrix without rows). */
    function Length(): (n: nat)
      requires Rectangular()
      ensures forall i :: 0 <= i < |rows| ==> |rows[i]| == n
      ensures rows == [] ==> n == 0
    {
      if rows == [] then 0 else |rows[0]|
    }
  }

  /** The matrix shape a bank of `nFilters` filters over `winS`-sample windows holds. */
  ghost predicate Shaped(m: seq<seq<real>>, nFilters: nat, winS: nat) {
    |m| == nFilters && forall i :: 0 <= i < |m| ==> |m[i]| == Fft.SpectrumBins(winS)
  }

  /** The matrix `new` allocates: every coefficient zero. */
  function ZeroCoeffs(nFilters: nat, winS: nat): (m: seq<seq<real>>)
    ensures Shaped(m, nFilters, winS)
    ensures forall i, j :: 0 <= i < |m| && 0 <= j < |m[i]| ==> m[i][j] == 0.0
  {
    seq(nFilters, _ => Farr(Fft.SpectrumBins(winS)))
  }

  /** `set_coeffs`' guard: the matrix has `n_filters` rows of `win_s / 2 + 1` coefficients. */
  predicate Fits(filters: FMat, nFilters: nat, winS: nat)
    requires filters.Rectangular()
  {
    filters.Height() == nFilters && filters.Length() == Fft.SpectrumBins(winS)
  }

  /**
   * A matrix that passes the guard has exactly the bank's shape; for a
   * bank with at least one filter, every matrix of that shape passes.
   */
  lemma FitsIsShaped(filters: FMat, nFilters: nat, winS: nat)
    requires filters.Rectangular()
    ensures Fits(filters, nFilters, winS) ==> Shaped(filters.rows, nFilters, winS)
    ensures nFilters > 0 && Shaped(filters.rows, nFilters, winS) ==> Fits(filters, nFilters, winS)
  {
    if Shaped(filters.rows, nFilters, winS) && nFilters > 0 {
      assert |filters.rows[0]| == Fft.SpectrumBins(winS);
    }
  }

  /** A bank of no filters accepts no matrix: a matrix without rows has length 0, never a bin count. */
  lemma EmptyBankRefusesAll(filters: FMat, winS: nat)
    requires filters.Rectangular()
    ensures !Fits(filters, 0, winS)
  {
  }

  /** `do_`'s guard: room for one value per filter, and exactly one bank's worth of bins. */
  predicate DoFits(input: CVec, output: FVecMut, nFilters: nat, winS: nat) {
    output.Size() >= nFilters && input.Size() == Fft.SpectrumBins(winS)
  }

  /** The native creation call. */
  function NewCall(nFilters: nat, winS: nat): (c: Call)
    ensures c.Invoke? && CastSizes(c.args, [nFilters, winS])
  {
    Invoke("new_aubio_filterbank", UIntArgs([nFilters, winS]))
  }

  /** The native calls of `set_coeffs` and `do_`. */
  const SetCoeffsCall: Call := Invoke("aubio_filterbank_set_coeffs", [])
  const DoCall: Call := Invoke("aubio_filterbank_do", [])

  /** Filter bank object owning one native handle and, through it, the coefficient matrix. */
  class FilterBank {
    /** The number of filters given at creation. */
    const nFilters: nat
    /** The window size given at creation. */
    const winS: nat
    /** The coefficient matrix in the native handle. */
    var coeffs: seq<seq<real>>
    /** The calls made on the handle so far, its creation first. */
    ghost var calls: seq<Call>

    /** The handle's history is well formed and the matrix keeps the shape it was allocated with. */
    ghost predicate Valid()
      reads this
    {
      Disciplined(calls) && Shaped(coeffs, nFilters, winS)
    }

    /** The handle has not been released. */
    ghost predicate Live()
      reads this
    {
      Native.Live(calls)
    }

    constructor Wrap(nFilters: nat, winS: nat, created: Call)
      requires created.Invoke?
      ensures this.nFilters == nFilters && this.winS == winS
      ensures coeffs == ZeroCoeffs(nFilters, winS) && calls == [created]
      ensures Valid() && Live()
    {
      this.nFilters := nFilters;
      this.winS := winS;
      coeffs := ZeroCoeffs(nFilters, winS);
      calls := [created];
    }

    /**
     * `new`: a null handle is a creation failure; otherwise the object
     * keeps both sizes and the handle holds a zero matrix of that shape.
     */
    static method New(nFilters: nat, winS: nat, native: Ptr) returns (r: Result<FilterBank>)
      ensures r.Err? <==> native.Null?
      ensures r.Err? ==> r.error == FailedInit
      ensures r.Ok? ==> fresh(r.value) && r.value.Valid() && r.value.Live()
      ensures r.Ok? ==> r.value.nFilters == nFilters && r.value.winS == winS
      ensures r.Ok? ==> r.value.coeffs == ZeroCoeffs(nFilters, winS) && r.value.calls == [NewCall(nFilters, winS)]
    {
      var status := CheckInit(native);
      if status.Err? {
        return Err(status.error);
      }
      var b := new FilterBank.Wrap(nFilters, winS, NewCall(nFilters, winS));
      return Ok(b);
    }

    /**
     * `set_coeffs`: with the size check on, a matrix of the wrong height or
     * row length panics before the native call; otherwise the handle's
     * matrix becomes the given one (a native copy between matrices of
     * different shapes copies nothing).
     */
    method SetCoeffs(filters: FMat) returns (r: Outcome<()>)
      requires Valid() && Live() && filters.Rectangular()
      modifies this
      ensures Valid() && Live()
      ensures r.Panicked? <==> CheckSizeFeature && !Fits(filters, nFilters, winS)
      ensures r.Panicked? ==> r.message == CoeffPanic && calls == old(calls) && coeffs == old(coeffs)
      ensures r.Returned? ==> calls == old(calls) + [SetCoeffsCall]
      ensures r.Returned? && Fits(filters, nFilters, winS) ==> coeffs == filters.rows
      ensures r.Returned? && !Fits(filters, nFilters, winS) ==> coeffs == old(coeffs)
    {
      if CheckSizeFeature && (filters.Height() != nFilters || filters.Length() != Fft.SpectrumBins(winS)) {
        return Panicked(CoeffPanic);
      }
      Append(calls, SetCoeffsCall);
      calls := calls + [SetCoeffsCall];
      if filters.Height() == nFilters && filters.Length() == Fft.SpectrumBins(winS) {
        FitsIsShaped(filters, nFilters, winS);
        coeffs := filters.rows;
      }
      return Returned(());
    }

    /** `get_coeffs`: the matrix the handle holds, which always has the bank's shape. */
    function GetCoeffs(): (m: FMat)
      requires Valid()
      reads this
      ensures m.rows == coeffs && m.Rectangular()
      ensures m.Height() == nFilters
      ensures nFilters > 0 ==> m.Length() == Fft.SpectrumBins(winS)
    {
      FMat(coeffs)
    }

    /**
     * `do_`: with the size check on, an output shorter than the number of
     * filters or an input whose bin count is not exactly `win_s / 2 + 1`
     * panics; otherwise the native step runs and the call returns `Ok`.
     */
    method Do(input: CVec, output: FVecMut) returns (r: Outcome<Status>)
      requires Valid() && Live() && output.Sound()
      modifies this, output.data.buf
      ensures Valid() && Live() && coeffs == old(coeffs)
      ensures r.Panicked? <==> CheckSizeFeature && !DoFits(input, output, nFilters, winS)
      ensures r.Panicked? ==> r.message == DoPanic && calls == old(calls) && unchanged(output.data.buf)
      ensures r.Returned? ==> r.value == Ok(()) && calls == old(calls) + [DoCall]
      ensures r.Returned? ==> SameOutside(old(output.data.buf[..]), output.data.buf[..], output.data.start, output.length)
    {
      if CheckSizeFeature && (output.Size() < nFilters || input.Size() != Fft.SpectrumBins(winS)) {
        return Panicked(DoPanic);
      }
      Append(calls, DoCall);
      calls := calls + [DoCall];
      WriteReal(output);
      return Returned(Ok(()));
    }

    /** `Drop`: the handle is released, after which no method can be called. */
    method Drop()
      requires Valid() && Live()
      modifies this
      ensures Valid() && !Live()
      ensures calls == old(calls) + [Delete]
    {
      Append(calls, Delete);
      calls := calls + [Delete];
    }
  }

  /** Setting coefficients twice leaves only the second matrix, when both fit. */
  method SetTwice(b: FilterBank, first: FMat, second: FMat) returns (r: Outcome<()>)
    requires b.Valid() && b.Live() && first.Rectangular() && second.Rectangular()
    requires Fits(first, b.nFilters, b.winS) && Fits(second, b.nFilters, b.winS)
    modifies b
    ensures b.Valid() && b.Live() && r.Returned?
    ensures b.GetCoeffs() == second
  {
    r := b.SetCoeffs(first);
    r := b.SetCoeffs(second);
  }

  /** Scalar product of a filter row with the spectrum's norm. */
  function Dot(row: seq<real>, norm: seq<real>): (x: real)
    requires |row| == |norm|
    decreases |row|
  {
    if row == [] then 0.0 else row[0] * norm[0] + Dot(row[1..], norm[1..])
  }

  /**
   * The filtered energies under the native defaults (no power, no
   * normalisation): each filter row applied to the spectrum's norm. This
   * is the arithmetic of the native `aubio_filterbank_do`, which the
   * wrapper only calls; `FilterBank.Do` leaves its output values
   * arbitrary, and nothing in the wrapper's model depends on `Dot`,
   * `Apply` or `FilterExample`.
   */
  function Apply(coeffs: seq<seq<real>>, norm: seq<real>): (out: seq<real>)
    requires forall i :: 0 <= i < |coeffs| ==> |coeffs[i]| == |norm|
    ensures |out| == |coeffs|
    ensures forall i :: 0 <= i < |coeffs| ==> out[i] == Dot(coeffs[i], norm)
  {
    seq(|coeffs|, i requires 0 <= i < |coeffs| => Dot(coeffs[i], norm))
  }

  /**
   * The bank's example: filters of ones and twos over three bins, applied
   * to a spectrum whose norm is 2, 2, 2, give 6 and 12.
   */
  lemma FilterExample()
    ensures CVec.From([2.0, 2.0, 2.0, 100.0, 100.0, 100.0]).Norm() == [2.0, 2.0, 2.0]
    ensures Apply([[1.0, 1.0, 1.0], [2.0, 2.0, 2.0]], [2.0, 2.0, 2.0]) == [6.0, 12.0]
  {
    SplitHalves([2.0, 2.0, 2.0, 100.0, 100.0, 100.0]);
    assert [2.0, 2.0, 2.0, 100.0, 100.0, 100.0][..3] == [2.0, 2.0, 2.0];
    assert Dot([1.0, 1.0, 1.0], [2.0, 2.0, 2.0]) == 6.0 by {
      assert [1.0, 1.0, 1.0][1..] == [1.0, 1.0];
      assert [1.0, 1.0][1..] == [1.0];
      assert [2.0, 2.0, 2.0][1..] == [2.0, 2.0];
      assert [2.0, 2.0][1..] == [2.0];
    }
    assert Dot([2.0, 2.0, 2.0], [2.0, 2.0, 2.0]) == 12.0 by {
      assert [2.0, 2.0, 2.0][1..] == [2.0, 2.0];
      assert [2.0, 2.0][1..] == [2.0];
    }
  }

  /** The creation test: the bank keeps 10 filters and a 512-sample window. */
  method TestNew(native: Ptr) returns (b: FilterBank)
    requires native.Addr?
    ensures b.nFilters == 10 && b.winS == 512 && b.Valid() && b.Live()
  {
    var created := FilterBank.New(10, 512, native);
    b := created.value;
  }

  /** The set/get test: two rows of three coefficients come back unchanged. */
  method TestSetCoeffs(native: Ptr) returns (coeffs: FMat)
    requires native.Addr?
    ensures coeffs == FMat([[1.0, 1.0, 1.0], [2.0, 2.0, 2.0]])
  {
    var created := FilterBank.New(2, 4, native);
    var b := created.value;
    var filters := FMat([[1.0, 1.0, 1.0], [2.0, 2.0, 2.0]]);
    var r := b.SetCoeffs(filters);
    coeffs := b.GetCoeffs();
  }

  /** The wrong-height test: three rows for a two-filter bank panic. */
  method TestWrongHeight(native: Ptr) returns (r: Outcome<()>)
    requires native.Addr?
    ensures CheckSizeFeature ==> r == Panicked(CoeffPanic)
  {
    var created := FilterBank.New(2, 4, native);
    var b := created.value;
    r := b.SetCoeffs(FMat([[1.0, 1.0, 1.0], [2.0, 2.0, 2.0], [0.0, 0.0, 0.0]]));
  }

  /** The wrong-length test: four one-coefficient rows panic. */
  method TestWrongLength(native: Ptr) returns (r: Outcome<()>)
    requires native.Addr?
    ensures CheckSizeFeature ==> r == Panicked(CoeffPanic)
  {
    var created := FilterBank.New(2, 4, native);
    var b := created.value;
    r := b.SetCoeffs(FMat([[1.0], [2.0], [0.0], [0.0]]));
  }

  /** The processing test: three bins into two outputs return `Ok`. */
  method TestDo(native: Ptr) returns (r: Outcome<Status>)
    requires native.Addr?
    ensures r == Returned(Ok(()))
  {
    var created := FilterBank.New(2, 4, native);
    var b := created.value;
    var stored := b.SetCoeffs(FMat([[1.0, 1.0, 1.0], [2.0, 2.0, 2.0]]));
    var input := [2.0, 2.0, 2.0, 100.0, 100.0, 100.0];
    SplitHalves(input);
    var output := NewBuffer(Farr(2));
    r := b.Do(CVec.From(input), FVecMut.From(Whole(output)));
  }

  /** The wrong-input test: five bins for a bank of three panic. */
  method TestWrongInput(native: Ptr) returns (r: Outcome<Status>)
    requires native.Addr?
    ensures CheckSizeFeature ==> r == Panicked(DoPanic)
  {
    var created := FilterBank.New(2, 4, native);
    var b := created.value;
    var input := [2.0, 2.0, 2.0, 2.0, 2.0, 100.0, 100.0, 100.0, 100.0, 100.0];
    SplitHalves(input);
    var output := NewBuffer(Farr(2));
    r := b.Do(CVec.From(input), FVecMut.From(Whole(output)));
  }

  /**
   * The wrong-output test: a one-value output panics, but its four-bin
   * input would already panic with an output of the right size.
   */
  method TestWrongOutput(native: Ptr) returns (r: Outcome<Status>)
    requires native.Addr?
    ensures CheckSizeFeature ==> r == Panicked(DoPanic)
  {
    var created := FilterBank.New(2, 4, native);
    var b := created.value;
    var input := [2.0, 2.0, 2.0, 2.0, 100.0, 100.0, 100.0, 100.0];
    SplitHalves(input);
    assert CVec.From(input).Size() == 4 != Fft.SpectrumBins(4);
    var output := NewBuffer(Farr(1));
    r := b.Do(CVec.From(input), FVecMut.From(Whole(output)));
  }
}
