/**
 * Pitch detection: the pitch-method and pitch-unit tables, whose native
 * names carry the terminator, and the pitch object, which keeps its hop
 * size and checks view sizes before each native step.
 */
module Pitch {
  import opened Types
  import opened Native
  import opened Vec
  import opened Macros

  /** The pitch detection algorithms. */
  datatype PitchMode = Schmitt | Fcomb | Mcomb | Yin | Yinfast | Yinfft | Specacf {

    /** `as_native_str`: the terminated native name. */
    function NativeStr(): (s: string)
      ensures Terminated(s)
    {
      match this
      case Schmitt => "schmitt\0"
      case Fcomb => "fcomb\0"
      case Mcomb => "mcomb\0"
      case Yin => "yin\0"
      case Yinfast => "yinfast\0"
      case Yinfft => "yinfft\0"
      case Specacf => "specacf\0"
    }

    /** `as_ref`: the native name without its terminator. */
    function Name(): (s: string)
      ensures s + "\0" == NativeStr() && '\0' !in s
    {
      RustStrRoundTrip(NativeStr());
      AsRustStr(NativeStr())
    }

    /** `from_str`: the algorithm with the given name, or `InvalidArg`. */
    static function FromStr(src: string): (r: Result<PitchMode>)
      ensures r.Ok? ==> r.value.Name() == src
      ensures r.Err? <==> forall m: PitchMode :: m.Name() != src
      ensures r.Err? ==> r.error == InvalidArg
    {
      ModeNames();
      if src == "schmitt" then Ok(Schmitt)
      else if src == "fcomb" then Ok(Fcomb)
      else if src == "mcomb" then Ok(Mcomb)
      else if src == "yin" then Ok(Yin)
      else if src == "yinfast" then Ok(Yinfast)
      else if src == "yinfft" then Ok(Yinfft)
      else if src == "specacf" then Ok(Specacf)
      else UnlistedModeName(src); Err(InvalidArg)
    }
  }

  /** The default pitch algorithm. */
  const DefaultMode: PitchMode := Yinfft

  /** The default algorithm is the one named "yinfft", and that name parses back to it. */
  lemma DefaultModeName()
    ensures DefaultMode.Name() == "yinfft" && PitchMode.FromStr("yinfft") == Ok(DefaultMode)
  {
    ModeNames();
  }

  /** Each algorithm's name is its native name without the terminator. */
  lemma ModeNames()
    ensures Schmitt.Name() == "schmitt" && Fcomb.Name() == "fcomb" && Mcomb.Name() == "mcomb"
    ensures Yin.Name() == "yin" && Yinfast.Name() == "yinfast" && Yinfft.Name() == "yinfft"
    ensures Specacf.Name() == "specacf"
  {
    assert Schmitt.Name() + "\0" == "schmitt\0";
    assert Fcomb.Name() + "\0" == "fcomb\0";
    assert Mcomb.Name() + "\0" == "mcomb\0";
    assert Yin.Name() + "\0" == "yin\0";
    assert Yinfast.Name() + "\0" == "yinfast\0";
    assert Yinfft.Name() + "\0" == "yinfft\0";
    assert Specacf.Name() + "\0" == "specacf\0";
  }

  /** A string outside the `from_str` table is no algorithm's name. */
  lemma UnlistedModeName(src: string)
    requires src !in {"schmitt", "fcomb", "mcomb", "yin", "yinfast", "yinfft", "specacf"}
    ensures forall m: PitchMode :: m.Name() != src
  {
    ModeNames();
    forall m: PitchMode
      ensures m.Name() != src
    {
      match m
      case Schmitt =>
      case Fcomb =>
      case Mcomb =>
      case Yin =>
      case Yinfast =>
      case Yinfft =>
      case Specacf =>
    }
  }

  /** No two algorithms share a name. */
  lemma ModeNameInjective(a: PitchMode, b: PitchMode)
    ensures a.Name() == b.Name() ==> a == b
  {
    ModeNames();
  }

  /** Parsing an algorithm's name gives it back. */
  lemma ModeRoundTrip(m: PitchMode)
    ensures PitchMode.FromStr(m.Name()) == Ok(m)
  {
    ModeNameInjective(PitchMode.FromStr(m.Name()).value, m);
  }

  /** The output units of the pitch object. */
  datatype PitchUnit = Hz | Midi | Cent | Bin {

    /** `as_native_str`: the terminated native name. */
    function NativeStr(): (s: string)
      ensures Terminated(s)
    {
      match this
      case Hz => "hertz\0"
      case Midi => "midi\0"
      case Cent => "cent\0"
      case Bin => "bin\0"
    }

    /** `as_ref`: the native name without its terminator. */
    function Name(): (s: string)
      ensures s + "\0" == NativeStr() && '\0' !in s
    {
      RustStrRoundTrip(NativeStr());
      AsRustStr(NativeStr())
    }

    /** `from_str`: the unit with the given name, or `InvalidArg`. */
    static function FromStr(src: string): (r: Result<PitchUnit>)
      ensures r.Ok? ==> r.value.Name() == src
      ensures r.Err? <==> forall u: PitchUnit :: u.Name() != src
      ensures r.Err? ==> r.error == InvalidArg
    {
      UnitNames();
      if src == "hertz" then Ok(Hz)
      else if src == "midi" then Ok(Midi)
      else if src == "cent" then Ok(Cent)
      else if src == "bin" then Ok(Bin)
      else UnlistedUnitName(src); Err(InvalidArg)
    }
  }

  /** The default output unit. */
  const DefaultUnit: PitchUnit := Hz

  /** The default unit is the one named "hertz", and that name parses back to it. */
  lemma DefaultUnitName()
    ensures DefaultUnit.Name() == "hertz" && PitchUnit.FromStr("hertz") == Ok(DefaultUnit)
  {
    UnitNames();
  }

  /** Each unit has its own name: Hz is "hertz", and the others are named after themselves. */
  lemma UnitNames()
    ensures Hz.Name() == "hertz" && Midi.Name() == "midi" && Cent.Name() == "cent" && Bin.Name() == "bin"
  {
    assert Hz.Name() + "\0" == "hertz\0";
    assert Midi.Name() + "\0" == "midi\0";
    assert Cent.Name() + "\0" == "cent\0";
    assert Bin.Name() + "\0" == "bin\0";
  }

  /** A string outside the unit table is no unit's name. */
  lemma UnlistedUnitName(src: string)
    requires src !in {"hertz", "midi", "cent", "bin"}
    ensures forall u: PitchUnit :: u.Name() != src
  {
    UnitNames();
    forall u: PitchUnit
      ensures u.Name() != src
    {
      match u
      case Hz =>
      case Midi =>
      case Cent =>
      case Bin =>
    }
  }

  /** Parsing a unit's name gives it back. */
  lemma UnitRoundTrip(u: PitchUnit)
    ensures PitchUnit.FromStr(u.Name()) == Ok(u)
  {
    UnitNames();
  }

  /** The native creation call, with the algorithm's terminated name. */
  function NewCall(mode: PitchMode, bufSize: nat, hopSize: nat, sampleRate: nat): (c: Call)
    ensures c.Invoke? && |c.args| == 4
    ensures c.args[0] == CStr(AsNativeCstr(mode.NativeStr()))
    ensures CastSizes(c.args[1..], [bufSize, hopSize, sampleRate])
  {
    var sizes := UIntArgs([bufSize, hopSize, sampleRate]);
    assert ([CStr(AsNativeCstr(mode.NativeStr()))] + sizes)[1..] == sizes;
    Invoke("new_aubio_pitch", [CStr(AsNativeCstr(mode.NativeStr()))] + sizes)
  }

  /** The parameters of a pitch object, one per native setter. */
  datatype Param = Tolerance(tolerance: real) | Silence(silence: real) | Unit(unit: PitchUnit) {

    /** The native call a setter makes; a unit travels as its terminated native name. */
    function Call(): (c: Call)
      ensures c.Invoke? && |c.args| == 1
      ensures this.Unit? ==> c.args[0] == CStr(AsNativeCstr(unit.NativeStr()))
      ensures !this.Unit? ==> c.args[0].Float?
    {
      match this
      case Tolerance(tolerance) => Invoke("aubio_pitch_set_tolerance", [Float(tolerance)])
      case Silence(silence) => Invoke("aubio_pitch_set_silence", [Float(silence)])
      case Unit(unit) => Invoke("aubio_pitch_set_unit", [CStr(AsNativeCstr(unit.NativeStr()))])
    }
  }

  /** The algorithm handed to the native constructor is read back by C as exactly its Rust name. */
  lemma MethodNameRead(mode: PitchMode, bufSize: nat, hopSize: nat, sampleRate: nat)
    ensures CStringAt(NewCall(mode, bufSize, hopSize, sampleRate).args[0].bytes) == Some(mode.Name())
  {
    NativeNameReadsAsRustName(mode.NativeStr());
  }

  /** The unit handed to `set_unit` is read back by C as exactly its Rust name. */
  lemma UnitNameRead(unit: PitchUnit)
    ensures CStringAt(Unit(unit).Call().args[0].bytes) == Some(unit.Name())
  {
    NativeNameReadsAsRustName(unit.NativeStr());
  }

  /** The native call of one detection step. */
  const DoCall: Call := Invoke("aubio_pitch_do", [])

  /** Pitch detection object owning one native handle. */
  class Pitch {
    /** The hop size given at creation. */
    const hopSize: nat
    /** The calls made on the handle so far, its creation first. */
    ghost var calls: seq<Call>

    ghost predicate Valid()
      reads this
    {
      Disciplined(calls)
    }

    /** The handle has not been released. */
    ghost predicate Live()
      reads this
    {
      Native.Live(calls)
    }

    constructor Wrap(hopSize: nat, created: Call)
      requires created.Invoke?
      ensures this.hopSize == hopSize && calls == [created]
      ensures Valid() && Live()
    {
      this.hopSize := hopSize;
      calls := [created];
    }

    /** `new`: a null handle is a creation failure; otherwise the object keeps the hop size. */
    static method New(mode: PitchMode, bufSize: nat, hopSize: nat, sampleRate: nat, native: Ptr)
      returns (r: Result<Pitch>)
      ensures r.Err? <==> native.Null?
      ensures r.Err? ==> r.error == FailedInit
      ensures r.Ok? ==> fresh(r.value) && r.value.Valid() && r.value.Live()
      ensures r.Ok? ==> r.value.hopSize == hopSize && r.value.calls == [NewCall(mode, bufSize, hopSize, sampleRate)]
    {
      var status := CheckInit(native);
      if status.Err? {
        return Err(status.error);
      }
      var p := new Pitch.Wrap(hopSize, NewCall(mode, bufSize, hopSize, sampleRate));
      return Ok(p);
    }

    /** `get_hop`: the hop size given at creation. */
    function GetHop(): (h: nat)
      ensures h == hopSize
    {
      hopSize
    }

    /**
     * `do_`: the input must hold a hop and the output one value, checked in
     * that order before the native step; a rejected call changes nothing.
     */
    method Do(input: FVec, output: FVecMut) returns (r: Status)
      requires Valid() && Live() && output.Sound()
      modifies this, output.data.buf
      ensures r == Then(input.CheckSize(hopSize), output.CheckSize(1))
      ensures Valid() && Live()
      ensures r.Err? ==> calls == old(calls) && unchanged(output.data.buf)
      ensures r.Ok? ==> calls == old(calls) + [DoCall]
      ensures r.Ok? ==> SameOutside(old(output.data.buf[..]), output.data.buf[..], output.data.start, output.length)
    {
      var checkIn := input.CheckSize(GetHop());
      if checkIn.Err? {
        return checkIn;
      }
      var checkOut := output.CheckSize(1);
      if checkOut.Err? {
        return checkOut;
      }
      Append(calls, DoCall);
      calls := calls + [DoCall];
      WriteReal(output);
      return Ok(());
    }

    /** `do_result`: one detection step into a zeroed one-slot buffer; the slot on success. */
    method DoResult(input: FVec) returns (r: Result<real>)
      requires Valid() && Live()
      modifies this
      ensures Valid() && Live()
      ensures r.Err? <==> input.CheckSize(hopSize).Err?
      ensures r.Err? ==> r.error == MismatchSize && calls == old(calls)
      ensures r.Ok? ==> calls == old(calls) + [DoCall]
    {
      var slot := NewBuffer(Farr(1));
      var status := Do(input, FVecMut.From(Whole(slot)));
      if status.Err? {
        return Err(status.error);
      }
      return Ok(slot[0]);
    }

    /** The `set_*` setters: one native call each. */
    method Set(p: Param)
      requires Valid() && Live()
      modifies this
      ensures Valid() && Live()
      ensures calls == old(calls) + [p.Call()]
    {
      Append(calls, p.Call());
      calls := calls + [p.Call()];
    }

    /** The `with_*` builders: the setter, then the same object. */
    method With(p: Param) returns (self: Pitch)
      requires Valid() && Live()
      modifies this
      ensures self == this && Valid() && Live()
      ensures calls == old(calls) + [p.Call()]
    {
      Set(p);
      return this;
    }

    /** `Drop`: the handle is released, after which no method can be called. */
    method Drop()
      requires Valid() && Live()
      modifies this
      ensures Valid() && !Live()
      ensures calls == old(calls) + [Delete]
    {
      Append(calls, Delete);
      calls := calls + [Delete];
    }
  }
}
