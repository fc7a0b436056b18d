/**
 * Note detection: the native step fills three values (note on, velocity,
 * note off), which `parse` turns into at most two notes, the note to turn
 * off first.
 */
module Notes {
  import opened Types
  import opened Native
  import opened Vec
  import opened Macros

  /** A recognised note; a velocity of 0 marks a note to turn off. */
  datatype Note = Note(pitch: real, velocity: real)

  /** How many of the given values are not zero. */
  function NonZero(values: seq<real>): (n: nat)
    ensures n <= |values|
    ensures n == 0 <==> forall i :: 0 <= i < |values| ==> values[i] == 0.0
  {
    if values == [] then 0
    else (if values[0] != 0.0 then 1 else 0) + NonZero(values[1..])
  }

  /**
   * `parse`: a note to turn off (its pitch from the third value, with
   * velocity 0) when that value is not zero, then a note on (pitch and
   * velocity from the first two values) when the first is not zero.
   */
  function Parse(values: seq<real>): (notes: seq<Note>)
    requires |values| == 3
    ensures |notes| == NonZero([values[0], values[2]])
    ensures notes == [] <==> values[0] == 0.0 && values[2] == 0.0
    ensures values[2] != 0.0 ==> notes[0] == Note(values[2], 0.0)
    ensures values[0] != 0.0 ==> notes[|notes| - 1] == Note(values[0], values[1])
    ensures forall n :: n in notes ==> n.pitch != 0.0
  {
    var off := if values[2] != 0.0 then [Note(values[2], 0.0)] else [];
    var on := if values[0] != 0.0 then [Note(values[0], values[1])] else [];
    off + on
  }

  /** When no note is turned off, every parsed note is a note on with the detected velocity. */
  lemma OnlyNoteOn(pitch: real, velocity: real)
    requires pitch != 0.0
    ensures Parse([pitch, velocity, 0.0]) == [Note(pitch, velocity)]
  {
  }

  /** A note change: the old note turned off before the new one starts. */
  lemma OffBeforeOn(pitch: real, velocity: real, off: real)
    requires pitch != 0.0 && off != 0.0
    ensures Parse([pitch, velocity, off]) == [Note(off, 0.0), Note(pitch, velocity)]
  {
  }

  /** The native creation call: the "default" method, terminated, then the sizes and the rate. */
  function NewCall(bufSize: nat, hopSize: nat, sampleRate: nat): (c: Call)
    ensures c.Invoke? && |c.args| == 4 && c.args[0] == CStr("default\0")
    ensures CStringAt(c.args[0].bytes) == Some("default")
  {
    assert "default" + "\0" == "default\0";
    RustStrRoundTrip("default\0");
    NativeNameReadsAsRustName("default\0");
    var sizes := UIntArgs([bufSize, hopSize, sampleRate]);
    assert ([CStr("default\0")] + sizes)[1..] == sizes;
    Invoke("new_aubio_notes", [CStr("default\0")] + sizes)
  }

  /** The parameters set through `set_*` and the `with_*` builders, all passed as floats. */
  datatype Param = Silence(silence: real) | MinioiMs(millis: real) | ReleaseDrop(level: real) {
    function Call(): (c: Call)
      ensures c.Invoke? && |c.args| == 1 && c.args[0].Float?
      ensures this.Silence? ==> c.args[0] == Float(silence)
      ensures this.MinioiMs? ==> c.args[0] == Float(millis)
      ensures this.ReleaseDrop? ==> c.args[0] == Float(level)
    {
      match this
      case Silence(silence) => Invoke("aubio_notes_set_silence", [Float(silence)])
      case MinioiMs(millis) => Invoke("aubio_notes_set_minioi_ms", [Float(millis)])
      case ReleaseDrop(level) => Invoke("aubio_notes_set_release_drop", [Float(level)])
    }
  }

  /** Different settings make different native calls: the call made identifies the setting and its value. */
  lemma CallInjective(a: Param, b: Param)
    ensures a.Call() == b.Call() <==> a == b
  {
  }

  /** The native call of one detection step. */
  const DoCall: Call := Invoke("aubio_notes_do", [])

  /** Note detection object owning one native handle. */
  class Notes {
    /** The hop size given at creation. */
    const hopSize: nat
    /** The calls made on the handle so far, its creation first. */
    ghost var calls: seq<Call>

    ghost predicate Valid()
      reads this
    {
      Disciplined(calls)
    }

    /** The handle has not been released. */
    ghost predicate Live()
      reads this
    {
      Native.Live(calls)
    }

    constructor Wrap(hopSize: nat, created: Call)
      requires created.Invoke?
      ensures this.hopSize == hopSize && calls == [created]
      ensures Valid() && Live()
    {
      this.hopSize := hopSize;
      calls := [created];
    }

    /** `new`: a null handle is a creation failure; otherwise the object keeps the hop size. */
    static method New(bufSize: nat, hopSize: nat, sampleRate: nat, native: Ptr) returns (r: Result<Notes>)
      ensures r.Err? <==> native.Null?
      ensures r.Err? ==> r.error == FailedInit
      ensures r.Ok? ==> fresh(r.value) && r.value.Valid() && r.value.Live()
      ensures r.Ok? ==> r.value.hopSize == hopSize && r.value.calls == [NewCall(bufSize, hopSize, sampleRate)]
    {
      var status := CheckInit(native);
      if status.Err? {
        return Err(status.error);
      }
      var n := new Notes.Wrap(hopSize, NewCall(bufSize, hopSize, sampleRate));
      return Ok(n);
    }

    /** `get_hop`: the hop size given at creation. */
    function GetHop(): (h: nat)
      ensures h == hopSize
    {
      hopSize
    }

    /** `do_`: a hop of input and three output values, checked in that order. */
    method Do(input: FVec, output: FVecMut) returns (r: Status)
      requires Valid() && Live() && output.Sound()
      modifies this, output.data.buf
      ensures r == Then(input.CheckSize(hopSize), output.CheckSize(3))
      ensures Valid() && Live()
      ensures r.Err? ==> calls == old(calls) && unchanged(output.data.buf)
      ensures r.Ok? ==> calls == old(calls) + [DoCall]
      ensures r.Ok? ==> SameOutside(old(output.data.buf[..]), output.data.buf[..], output.data.start, output.length)
    {
      var checkIn := input.CheckSize(GetHop());
      if checkIn.Err? {
        return checkIn;
      }
      var checkOut := output.CheckSize(3);
      if checkOut.Err? {
        return checkOut;
      }
      Append(calls, DoCall);
      calls := calls + [DoCall];
      WriteReal(output);
      return Ok(());
    }

    /**
     * `do_result`: one step into a zeroed three-slot buffer, whose values
     * are parsed into notes; only the input check can fail.
     */
    method DoResult(input: FVec) returns (r: Result<seq<Note>>)
      requires Valid() && Live()
      modifies this
      ensures Valid() && Live()
      ensures r.Err? <==> input.CheckSize(hopSize).Err?
      ensures r.Err? ==> r.error == MismatchSize && calls == old(calls)
      ensures r.Ok? ==> calls == old(calls) + [DoCall] && |r.value| <= 2
      ensures r.Ok? ==> exists values: seq<real> {:trigger Parse(values)} :: |values| == 3 && r.value == Parse(values)
    {
      var slot := NewBuffer(Farr(3));
      var status := Do(input, FVecMut.From(Whole(slot)));
      if status.Err? {
        return Err(status.error);
      }
      var values := slot[..];
      return Ok(Parse(values));
    }

    /** `set_*`: the value goes to the native layer. */
    method Set(p: Param)
      requires Valid() && Live()
      modifies this
      ensures Valid() && Live()
      ensures calls == old(calls) + [p.Call()]
    {
      Append(calls, p.Call());
      calls := calls + [p.Call()];
    }

    /** The `with_*` builders: the setter, then the same object. */
    method With(p: Param) returns (self: Notes)
      requires Valid() && Live()
      modifies this
      ensures self == this && Valid() && Live()
      ensures calls == old(calls) + [p.Call()]
    {
      Set(p);
      return this;
    }

    /** `Drop`: the handle is released, after which no method can be called. */
    method Drop()
      requires Valid() && Live()
      modifies this
      ensures Valid() && !Live()
      ensures calls == old(calls) + [Delete]
    {
      Append(calls, Delete);
      calls := calls + [Delete];
    }
  }
}
