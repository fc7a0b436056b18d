/**
 * Beat tracking: the tempo object takes an onset function by its native
 * name, checks a hop of input and one output value per step, and passes
 * its delay in samples as a 32-bit signed native integer.
 */
module Tempo {
  import opened Types
  import opened Native
  import opened Vec
  import opened Macros
  import Onset

  /** The native creation call: the onset function's terminated name, the sizes and the rate. */
  function NewCall(mode: Onset.OnsetMode, bufSize: nat, hopSize: nat, sampleRate: nat): (c: Call)
    ensures c.Invoke? && |c.args| == 4 && c.args[0].CStr?
    ensures CStringAt(c.args[0].bytes) == Some(mode.Name())
    ensures CastSizes(c.args[1..], [bufSize, hopSize, sampleRate])
  {
    NativeNameReadsAsRustName(Onset.NativeStr(mode));
    var sizes := UIntArgs([bufSize, hopSize, sampleRate]);
    var name := CStr(AsNativeCstr(Onset.NativeStr(mode)));
    assert ([name] + sizes)[1..] == sizes;
    Invoke("new_aubio_tempo", [name] + sizes)
  }

  /** The parameters set through `set_*`; all but the tatum signature also have a `with_*` builder. */
  datatype Param =
    | Silence(silence: real)
    | Threshold(threshold: real)
    | Delay(samples: int)
    | DelayS(seconds: real)
    | DelayMs(millis: real)
    | TatumSignature(signature: nat)
  {
    /** The native call a setter makes: the delay truncated to a signed 32-bit integer, the signature unsigned. */
    function Call(): (c: Call)
      ensures c.Invoke? && |c.args| == 1
      ensures this.Delay? ==> c.args[0] == SInt(AsSint(samples))
      ensures this.TatumSignature? ==> c.args[0] == UInt(AsUint(signature))
      ensures !this.Delay? && !this.TatumSignature? ==> c.args[0].Float?
    {
      match this
      case Silence(silence) => Invoke("aubio_tempo_set_silence", [Float(silence)])
      case Threshold(threshold) => Invoke("aubio_tempo_set_threshold", [Float(threshold)])
      case Delay(samples) => Invoke("aubio_tempo_set_delay", [SInt(AsSint(samples))])
      case DelayS(seconds) => Invoke("aubio_tempo_set_delay_s", [Float(seconds)])
      case DelayMs(millis) => Invoke("aubio_tempo_set_delay_ms", [Float(millis)])
      case TatumSignature(signature) => Invoke("aubio_tempo_set_tatum_signature", [UInt(AsUint(signature))])
    }
  }

  /**
   * What `get_delay` reports after `set_delay(d)`, when the native layer
   * keeps the signed 32-bit value and hands its bits back unsigned.
   */
  function DelayReadBack(d: int): (n: nat)
    ensures n < U32Limit
    ensures (n - d) % U32Limit == 0
  {
    SintAsUint(AsSint(d))
  }

  /**
   * The delay survives the round trip exactly when it is a count below
   * 2^32: counts from 2^31 on pass through a negative native value and
   * come back unchanged, negative delays never do.
   */
  lemma DelayRoundTrip(d: int)
    ensures DelayReadBack(d) == d <==> 0 <= d < U32Limit
  {
    var s := AsSint(d);
    if 0 <= d < I32Limit {
      assert s == d;
    } else if I32Limit <= d < U32Limit {
      assert s == d - U32Limit;
    } else if d >= U32Limit {
      assert DelayReadBack(d) < U32Limit;
    }
  }

  /** A negative delay comes back as a large count, 2^32 above it. */
  lemma NegativeDelayWraps(d: int)
    requires -I32Limit <= d < 0
    ensures DelayReadBack(d) == d + U32Limit
  {
  }

  /** The native call of one tracking step. */
  const DoCall: Call := Invoke("aubio_tempo_do", [])

  /** Tempo detection object owning one native handle. */
  class Tempo {
    /** The hop size given at creation. */
    const hopSize: nat
    /** The calls made on the handle so far, its creation first. */
    ghost var calls: seq<Call>

    ghost predicate Valid()
      reads this
    {
      Disciplined(calls)
    }

    /** The handle has not been released. */
    ghost predicate Live()
      reads this
    {
      Native.Live(calls)
    }

    constructor Wrap(hopSize: nat, created: Call)
      requires created.Invoke?
      ensures this.hopSize == hopSize && calls == [created]
      ensures Valid() && Live()
    {
      this.hopSize := hopSize;
      calls := [created];
    }

    /** `new`: a null handle is a creation failure; otherwise the object keeps the hop size. */
    static method New(mode: Onset.OnsetMode, bufSize: nat, hopSize: nat, sampleRate: nat, native: Ptr) returns (r: Result<Tempo>)
      ensures r.Err? <==> native.Null?
      ensures r.Err? ==> r.error == FailedInit
      ensures r.Ok? ==> fresh(r.value) && r.value.Valid() && r.value.Live()
      ensures r.Ok? ==> r.value.hopSize == hopSize && r.value.calls == [NewCall(mode, bufSize, hopSize, sampleRate)]
    {
      var status := CheckInit(native);
      if status.Err? {
        return Err(status.error);
      }
      var t := new Tempo.Wrap(hopSize, NewCall(mode, bufSize, hopSize, sampleRate));
      return Ok(t);
    }

    /** `get_hop`: the hop size given at creation. */
    function GetHop(): (h: nat)
      ensures h == hopSize
    {
      hopSize
    }

    /** `do_`: a hop of input and one output value, checked in that order. */
    method Do(input: FVec, output: FVecMut) returns (r: Status)
      requires Valid() && Live() && output.Sound()
      modifies this, output.data.buf
      ensures r == Then(input.CheckSize(hopSize), output.CheckSize(1))
      ensures Valid() && Live()
      ensures r.Err? ==> calls == old(calls) && unchanged(output.data.buf)
      ensures r.Ok? ==> calls == old(calls) + [DoCall]
      ensures r.Ok? ==> SameOutside(old(output.data.buf[..]), output.data.buf[..], output.data.start, output.length)
    {
      var checkIn := input.CheckSize(GetHop());
      if checkIn.Err? {
        return checkIn;
      }
      var checkOut := output.CheckSize(1);
      if checkOut.Err? {
        return checkOut;
      }
      Append(calls, DoCall);
      calls := calls + [DoCall];
      WriteReal(output);
      return Ok(());
    }

    /** `do_result`: one step into a zeroed one-slot buffer; only the input check can fail. */
    method DoResult(input: FVec) returns (r: Result<real>)
      requires Valid() && Live()
      modifies this
      ensures Valid() && Live()
      ensures r.Err? <==> input.CheckSize(hopSize).Err?
      ensures r.Err? ==> r.error == MismatchSize && calls == old(calls)
      ensures r.Ok? ==> calls == old(calls) + [DoCall]
    {
      var slot := NewBuffer(Farr(1));
      var status := Do(input, FVecMut.From(Whole(slot)));
      if status.Err? {
        return Err(status.error);
      }
      return Ok(slot[0]);
    }

    /** `set_*`: the value goes to the native layer. */
    method Set(p: Param)
      requires Valid() && Live()
      modifies this
      ensures Valid() && Live()
      ensures calls == old(calls) + [p.Call()]
    {
      Append(calls, p.Call());
      calls := calls + [p.Call()];
    }

    /** The `with_*` builders (there is none for the tatum signature): the setter, then the same object. */
    method With(p: Param) returns (self: Tempo)
      requires Valid() && Live() && !p.TatumSignature?
      modifies this
      ensures self == this && Valid() && Live()
      ensures calls == old(calls) + [p.Call()]
    {
      Set(p);
      return this;
    }

    /** `Drop`: the handle is released, after which no method can be called. */
    method Drop()
      requires Valid() && Live()
      modifies this
      ensures Valid() && !Live()
      ensures calls == old(calls) + [Delete]
    {
      Append(calls, Delete);
      calls := calls + [Delete];
    }
  }
}
