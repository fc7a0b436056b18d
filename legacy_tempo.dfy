/**
 * The earlier tempo object: created with the method name "default" as a
 * string without a terminator, checked with the allocation check of the
 * earlier error type.
 */
module LegacyTempo {
  import opened Types
  import opened Native
  import LegacyTypes

  /** The bytes handed over as the method name: "default", with no terminator. */
  const MethodBytes: string := "default"

  /** The native creation call. */
  function NewCall(bufSize: nat, hopSize: nat, sampleRate: nat): (c: Call)
    ensures c.Invoke? && |c.args| == 4 && c.args[0] == CStr(MethodBytes)
    ensures CastSizes(c.args[1..], [bufSize, hopSize, sampleRate])
  {
    var sizes := UIntArgs([bufSize, hopSize, sampleRate]);
    assert ([CStr(MethodBytes)] + sizes)[1..] == sizes;
    Invoke("new_aubio_tempo", [CStr(MethodBytes)] + sizes)
  }

  /**
   * The method name has no terminator, so a C reader finds no string in
   * the bytes given, and what it reads depends on the memory after them;
   * the terminated literal the newer revision passes reads as "default".
   */
  lemma MethodNameUnterminated(bufSize: nat, hopSize: nat, sampleRate: nat)
    ensures CStringAt(NewCall(bufSize, hopSize, sampleRate).args[0].bytes) == None
    ensures CStringAt(MethodBytes + "\0") == Some(MethodBytes)
  {
    assert '\0' !in MethodBytes by {
      assert forall i :: 0 <= i < |MethodBytes| ==> MethodBytes[i] != '\0';
    }
    RustStrRoundTrip(MethodBytes + "\0");
    NativeNameReadsAsRustName(MethodBytes + "\0");
  }

  /** Tempo detection object owning one native handle. */
  class Tempo {
    /** The calls made on the handle so far, its creation first. */
    ghost var calls: seq<Call>

    ghost predicate Valid()
      reads this
    {
      Disciplined(calls)
    }

    /** The handle has not been released. */
    ghost predicate Live()
      reads this
    {
      Native.Live(calls)
    }

    constructor Wrap(created: Call)
      requires created.Invoke?
      ensures calls == [created] && Valid() && Live()
    {
      calls := [created];
    }

    /** `new`: a null handle is an allocation failure. */
    static method New(bufSize: nat, hopSize: nat, sampleRate: nat, native: Ptr) returns (r: LegacyTypes.Result<Tempo>)
      ensures r.Err? <==> native.Null?
      ensures r.Err? ==> r.error == LegacyTypes.Allocation
      ensures r.Ok? ==> fresh(r.value) && r.value.Valid() && r.value.Live()
      ensures r.Ok? ==> r.value.calls == [NewCall(bufSize, hopSize, sampleRate)]
    {
      var status := LegacyTypes.CheckAlloc(native);
      if status.Err? {
        return LegacyTypes.Err(status.error);
      }
      var t := new Tempo.Wrap(NewCall(bufSize, hopSize, sampleRate));
      return LegacyTypes.Ok(t);
    }

    /** `Drop`: the handle is released, after which no method can be called. */
    method Drop()
      requires Valid() && Live()
      modifies this
      ensures Valid() && !Live()
      ensures calls == old(calls) + [Delete]
    {
      Append(calls, Delete);
      calls := calls + [Delete];
    }
  }
}
