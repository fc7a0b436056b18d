/**
 * Spectral description: the spectral-shape table, the methods a
 * descriptor accepts (shapes and onset functions), and the descriptor
 * object, which checks only its one-value output before the native step.
 */
module SpecDesc {
  import opened Types
  import opened Native
  import opened Vec
  import opened Macros
  import Onset

  /** The spectral shape descriptors. */
  datatype SpecShape = Centroid | Spread | Skewness | Kurtosis | Slope | Decrease | Rolloff {

    /** `as_native_str`: the terminated native name. */
    function NativeStr(): (s: string)
      ensures Terminated(s)
    {
      match this
      case Centroid => "centroid\0"
      case Spread => "spread\0"
      case Skewness => "skewness\0"
      case Kurtosis => "kurtosis\0"
      case Slope => "slope\0"
      case Decrease => "decrease\0"
      case Rolloff => "rolloff\0"
    }

    /** `as_ref`: the native name without its terminator. */
    function Name(): (s: string)
      ensures s + "\0" == NativeStr() && '\0' !in s
    {
      RustStrRoundTrip(NativeStr());
      AsRustStr(NativeStr())
    }

    /** `from_str`: the shape with the given name, or `InvalidArg`. */
    static function FromStr(src: string): (r: Result<SpecShape>)
      ensures r.Ok? ==> r.value.Name() == src
      ensures r.Err? <==> forall s: SpecShape :: s.Name() != src
      ensures r.Err? ==> r.error == InvalidArg
    {
      ShapeNames();
      if src == "centroid" then Ok(Centroid)
      else if src == "spread" then Ok(Spread)
      else if src == "skewness" then Ok(Skewness)
      else if src == "kurtosis" then Ok(Kurtosis)
      else if src == "slope" then Ok(Slope)
      else if src == "decrease" then Ok(Decrease)
      else if src == "rolloff" then Ok(Rolloff)
      else UnlistedShapeName(src); Err(InvalidArg)
    }
  }

  /** Each shape's name is its native name without the terminator. */
  lemma ShapeNames()
    ensures Centroid.Name() == "centroid" && Spread.Name() == "spread" && Skewness.Name() == "skewness"
    ensures Kurtosis.Name() == "kurtosis" && Slope.Name() == "slope" && Decrease.Name() == "decrease"
    ensures Rolloff.Name() == "rolloff"
  {
    assert Centroid.Name() + "\0" == "centroid\0";
    assert Spread.Name() + "\0" == "spread\0";
    assert Skewness.Name() + "\0" == "skewness\0";
    assert Kurtosis.Name() + "\0" == "kurtosis\0";
    assert Slope.Name() + "\0" == "slope\0";
    assert Decrease.Name() + "\0" == "decrease\0";
    assert Rolloff.Name() + "\0" == "rolloff\0";
  }

  /** A string outside the `from_str` table is no shape's name. */
  lemma UnlistedShapeName(src: string)
    requires src !in {"centroid", "spread", "skewness", "kurtosis", "slope", "decrease", "rolloff"}
    ensures forall s: SpecShape :: s.Name() != src
  {
    ShapeNames();
    forall s: SpecShape
      ensures s.Name() != src
    {
      match s
      case Centroid =>
      case Spread =>
      case Skewness =>
      case Kurtosis =>
      case Slope =>
      case Decrease =>
      case Rolloff =>
    }
  }

  /** No two shapes share a name. */
  lemma ShapeNameInjective(a: SpecShape, b: SpecShape)
    ensures a.Name() == b.Name() ==> a == b
  {
    ShapeNames();
  }

  /** Parsing a shape's name gives it back. */
  lemma ShapeRoundTrip(s: SpecShape)
    ensures SpecShape.FromStr(s.Name()) == Ok(s)
  {
    ShapeNameInjective(SpecShape.FromStr(s.Name()).value, s);
  }

  /** A method a descriptor computes: a spectral shape or an onset detection function. */
  datatype SpecMethod = Shape(shape: SpecShape) | OnsetFunction(mode: Onset.OnsetMode) {

    /** The terminated native name passed to the constructor. */
    function NativeStr(): (s: string)
      ensures Terminated(s)
      ensures this.Shape? ==> AsRustStr(s) == shape.Name()
      ensures this.OnsetFunction? ==> AsRustStr(s) == mode.Name()
    {
      match this
      case Shape(shape) => RustStrRoundTrip(shape.NativeStr()); shape.NativeStr()
      case OnsetFunction(mode) => Onset.NativeStr(mode)
    }
  }

  /** The native creation call. */
  function NewCall(m: SpecMethod, bufSize: nat): (c: Call)
    ensures c.Invoke? && |c.args| == 2 && c.args[0] == CStr(AsNativeCstr(m.NativeStr()))
    ensures CastSizes(c.args[1..], [bufSize])
  {
    var sizes := UIntArgs([bufSize]);
    assert ([CStr(AsNativeCstr(m.NativeStr()))] + sizes)[1..] == sizes;
    Invoke("new_aubio_specdesc", [CStr(AsNativeCstr(m.NativeStr()))] + sizes)
  }

  /** The method handed to the native constructor is read back by C as its plain name. */
  lemma MethodNameRead(m: SpecMethod, bufSize: nat)
    ensures CStringAt(NewCall(m, bufSize).args[0].bytes) == Some(AsRustStr(m.NativeStr()))
  {
    NativeNameReadsAsRustName(m.NativeStr());
  }

  /** The native call of one description step. */
  const DoCall: Call := Invoke("aubio_specdesc_do", [])

  /** Spectral descriptor object owning one native handle. */
  class SpecDesc {
    /** The calls made on the handle so far, its creation first. */
    ghost var calls: seq<Call>

    ghost predicate Valid()
      reads this
    {
      Disciplined(calls)
    }

    /** The handle has not been released. */
    ghost predicate Live()
      reads this
    {
      Native.Live(calls)
    }

    constructor Wrap(created: Call)
      requires created.Invoke?
      ensures calls == [created] && Valid() && Live()
    {
      calls := [created];
    }

    /** `new`: a null handle is a creation failure. */
    static method New(m: SpecMethod, bufSize: nat, native: Ptr) returns (r: Result<SpecDesc>)
      ensures r.Err? <==> native.Null?
      ensures r.Err? ==> r.error == FailedInit
      ensures r.Ok? ==> fresh(r.value) && r.value.Valid() && r.value.Live()
      ensures r.Ok? ==> r.value.calls == [NewCall(m, bufSize)]
    {
      var status := CheckInit(native);
      if status.Err? {
        return Err(status.error);
      }
      var d := new SpecDesc.Wrap(NewCall(m, bufSize));
      return Ok(d);
    }

    /**
     * `do_`: only the output is checked, for one value; the spectrum is
     * passed on whatever its size.
     */
    method Do(fftgrain: CVec, desc: FVecMut) returns (r: Status)
      requires Valid() && Live() && desc.Sound()
      modifies this, desc.data.buf
      ensures r == desc.CheckSize(1)
      ensures Valid() && Live()
      ensures r.Err? ==> calls == old(calls) && unchanged(desc.data.buf)
      ensures r.Ok? ==> calls == old(calls) + [DoCall]
      ensures r.Ok? ==> SameOutside(old(desc.data.buf[..]), desc.data.buf[..], desc.data.start, desc.length)
    {
      var check := desc.CheckSize(1);
      if check.Err? {
        return check;
      }
      Append(calls, DoCall);
      calls := calls + [DoCall];
      WriteReal(desc);
      return Ok(());
    }

    /** `do_result`: one step into a zeroed one-slot buffer, which never fails. */
    method DoResult(fftgrain: CVec) returns (r: Result<real>)
      requires Valid() && Live()
      modifies this
      ensures Valid() && Live()
      ensures r.Ok? && calls == old(calls) + [DoCall]
    {
      var slot := NewBuffer(Farr(1));
      var status := Do(fftgrain, FVecMut.From(Whole(slot)));
      if status.Err? {
        // the one-slot buffer always passes the output check
        assert false;
      }
      return Ok(slot[0]);
    }

    /** `Drop`: the handle is released, after which no method can be called. */
    method Drop()
      requires Valid() && Live()
      modifies this
      ensures Valid() && !Live()
      ensures calls == old(calls) + [Delete]
    {
      Append(calls, Delete);
      calls := calls + [Delete];
    }
  }

  /**
   * One case of the descriptor test: a `carr!(1024)` spectrum into a
   * `farr!(1)` output succeeds for any method, once the native
   * constructor returns a handle.
   */
  method TestCase(m: SpecMethod, native: Ptr) returns (r: Status)
    requires native.Addr?
    ensures r == Ok(())
  {
    var spectrum := CVec.From(Carr(1024));
    var out := NewBuffer(Farr(1));
    var created := SpecDesc.New(m, 1024, native);
    var o := created.value;
    r := o.Do(spectrum, FVecMut.From(Whole(out)));
    o.Drop();
  }
}
