/**
 * The phase vocoder object: analysis takes a hop of signal into a window
 * of spectrum, synthesis the reverse, each checked before the native step;
 * the window shape is selected by name and the native status decides the
 * outcome.
 */
module PVoc {
  import opened Types
  import opened Native
  import opened Vec
  import opened WinFunc
  import opened Macros
  import Fft

  /** The native creation call. */
  function NewCall(winSize: nat, hopSize: nat): (c: Call)
    ensures c.Invoke? && CastSizes(c.args, [winSize, hopSize])
  {
    Invoke("new_aubio_pvoc", UIntArgs([winSize, hopSize]))
  }

  /** The native call selecting a window shape, given a pointer into its terminated name. */
  function SetWindowCall(w: WindowType): (c: Call)
    ensures c.Invoke? && |c.args| == 1 && c.args[0].CStr?
  {
    Invoke("aubio_pvoc_set_window", [CStr(AsNativeCstr(w.NativeStr()))])
  }

  /** The pointer `set_window` passes reads, as a C string, as the window's name. */
  lemma WindowArgRead(w: WindowType)
    ensures CStringAt(SetWindowCall(w).args[0].bytes) == Some(w.Name())
  {
    WindowNameRead(w);
  }

  /** The native analysis and synthesis steps. */
  const DoCall: Call := Invoke("aubio_pvoc_do", [])
  const RdoCall: Call := Invoke("aubio_pvoc_rdo", [])

  /** Phase vocoder object owning one native handle. */
  class PVoc {
    /** The hop size the handle reports. */
    const hop: nat
    /** The window size the handle reports. */
    const win: nat
    /** The calls made on the handle so far, its creation first. */
    ghost var calls: seq<Call>

    ghost predicate Valid()
      reads this
    {
      Disciplined(calls)
    }

    /** The handle has not been released. */
    ghost predicate Live()
      reads this
    {
      Native.Live(calls)
    }

    constructor Wrap(hop: nat, win: nat, created: Call)
      requires created.Invoke?
      ensures this.hop == hop && this.win == win && calls == [created]
      ensures Valid() && Live()
    {
      this.hop := hop;
      this.win := win;
      calls := [created];
    }

    /**
     * `new`: a null handle is a creation failure. The sizes the object
     * later reports are read from the handle (`nativeHop`, `nativeWin`).
     */
    static method New(winSize: nat, hopSize: nat, native: Ptr, nativeHop: nat, nativeWin: nat) returns (r: Result<PVoc>)
      ensures r.Err? <==> native.Null?
      ensures r.Err? ==> r.error == FailedInit
      ensures r.Ok? ==> fresh(r.value) && r.value.Valid() && r.value.Live()
      ensures r.Ok? ==> r.value.hop == nativeHop && r.value.win == nativeWin
      ensures r.Ok? ==> r.value.calls == [NewCall(winSize, hopSize)]
    {
      var status := CheckInit(native);
      if status.Err? {
        return Err(status.error);
      }
      var p := new PVoc.Wrap(nativeHop, nativeWin, NewCall(winSize, hopSize));
      return Ok(p);
    }

    /** `get_hop`: the hop size of the handle. */
    function GetHop(): (h: nat)
      reads this
      ensures h == hop
    {
      hop
    }

    /** `get_win`: the window size of the handle. */
    function GetWin(): (w: nat)
      reads this
      ensures w == win
    {
      win
    }

    /** `do_`: a hop of input and a window-sized spectrum, checked in that order. */
    method Do(input: FVec, fftgrain: CVecMut) returns (r: Status)
      requires Valid() && Live() && fftgrain.Sound()
      modifies this, fftgrain.Arrays()
      ensures r == Then(input.CheckSize(hop), fftgrain.CheckSize(win))
      ensures Valid() && Live()
      ensures r.Err? ==> calls == old(calls) && forall a :: a in fftgrain.Arrays() ==> unchanged(a)
      ensures r.Ok? ==> calls == old(calls) + [DoCall]
      ensures r.Ok? ==> forall a, i :: a in fftgrain.Arrays() && 0 <= i < a.Length && !fftgrain.InWindow(a, i) ==> a[i] == old(a[i])
    {
      var checkIn := input.CheckSize(GetHop());
      if checkIn.Err? {
        return checkIn;
      }
      var checkOut := fftgrain.CheckSize(GetWin());
      if checkOut.Err? {
        return checkOut;
      }
      Append(calls, DoCall);
      calls := calls + [DoCall];
      WriteComplex(fftgrain);
      return Ok(());
    }

    /** `rdo`: a window-sized spectrum and a hop of output, checked in that order. */
    method Rdo(fftgrain: CVec, output: FVecMut) returns (r: Status)
      requires Valid() && Live() && output.Sound()
      modifies this, output.data.buf
      ensures r == Then(fftgrain.CheckSize(win), output.CheckSize(hop))
      ensures Valid() && Live()
      ensures r.Err? ==> calls == old(calls) && unchanged(output.data.buf)
      ensures r.Ok? ==> calls == old(calls) + [RdoCall]
      ensures r.Ok? ==> SameOutside(old(output.data.buf[..]), output.data.buf[..], output.data.start, output.length)
    {
      var checkIn := fftgrain.CheckSize(GetWin());
      if checkIn.Err? {
        return checkIn;
      }
      var checkOut := output.CheckSize(GetHop());
      if checkOut.Err? {
        return checkOut;
      }
      Append(calls, RdoCall);
      calls := calls + [RdoCall];
      WriteReal(output);
      return Ok(());
    }

    /**
     * `set_window`: the native layer answers with a status (`nativeStatus`);
     * zero is success, anything else an invalid argument.
     */
    method SetWindow(w: WindowType, nativeStatus: nat) returns (r: Status)
      requires Valid() && Live()
      modifies this
      ensures Valid() && Live()
      ensures calls == old(calls) + [SetWindowCall(w)]
      ensures r.Ok? <==> nativeStatus == 0
      ensures r.Err? ==> r.error == InvalidArg
    {
      Append(calls, SetWindowCall(w));
      calls := calls + [SetWindowCall(w)];
      if nativeStatus == 0 {
        return Ok(());
      } else {
        return Err(InvalidArg);
      }
    }

    /**
     * `with_window`: the object back on success; on failure the object,
     * owned by the builder, is dropped and its handle released.
     */
    method WithWindow(w: WindowType, nativeStatus: nat) returns (r: Result<PVoc>)
      requires Valid() && Live()
      modifies this
      ensures Valid()
      ensures r.Ok? <==> nativeStatus == 0
      ensures r.Ok? ==> r.value == this && Live() && calls == old(calls) + [SetWindowCall(w)]
      ensures r.Err? ==> r.error == InvalidArg && !Live() && calls == old(calls) + [SetWindowCall(w), Delete]
    {
      var status := SetWindow(w, nativeStatus);
      if status.Err? {
        Drop();
        return Err(status.error);
      }
      return Ok(this);
    }

    /** `Drop`: the handle is released, after which no method can be called. */
    method Drop()
      requires Valid() && Live()
      modifies this
      ensures Valid() && !Live()
      ensures calls == old(calls) + [Delete]
    {
      Append(calls, Delete);
      calls := calls + [Delete];
    }
  }

  /**
   * Analysis measures its spectrum in bins against the window size, yet a
   * `win`-sample frame has only `win / 2 + 1` bins: with the size check on,
   * a hop of input and a `carr!(win)` spectrum are refused for every even
   * window of 4 samples or more, and the native step is never reached.
   */
  method DoFrameSpectrum(p: PVoc) returns (r: Status)
    requires p.Valid() && p.Live()
    requires p.hop < U32Limit
    requires p.win % 2 == 0 && p.win >= 4 && p.win + 2 < U32Limit
    modifies p
    ensures CheckSizeFeature ==> r == Err(MismatchSize) && p.calls == old(p.calls)
  {
    var buf := NewBuffer(Carr(p.win));
    Fft.OwnSpectrumRejected(p.win, Whole(buf));
    r := p.Do(FVec.From(Farr(p.hop)), CVecMut.From(Whole(buf)));
  }

  /** Synthesis refuses a `carr!(win)` spectrum the same way, before any native call. */
  method RdoFrameSpectrum(p: PVoc, output: FVecMut) returns (r: Status)
    requires p.Valid() && p.Live() && output.Sound()
    requires p.win % 2 == 0 && p.win >= 4 && p.win + 2 < U32Limit
    modifies p, output.data.buf
    ensures CheckSizeFeature ==> r == Err(MismatchSize) && p.calls == old(p.calls) && unchanged(output.data.buf)
  {
    CarrBelowWindow(p.win);
    r := p.Rdo(CVec.From(Carr(p.win)), output);
  }
}
