/**
 * Logging in the earlier revision: levels decoded by matching the native
 * constants, a callback that panics on anything it cannot decode, and
 * `Log` values that register their logger with the process-wide native
 * state when created and reset that state when dropped.
 */
module LegacyLog {
  import opened Types
  import opened Native
  import opened LogLevels

  /**
   * `from_ffi`: the signed native level, read as unsigned, matched against
   * the five constants in declaration order; anything else is `None`.
   */
  function FromFfi(c: LogCodes, level: int): (r: Option<LogLevel>)
    requires -I32Limit <= level < I32Limit
    ensures r.Some? <==> SintAsUint(level) in {c.err, c.inf, c.msg, c.dbg, c.wrn}
    ensures r.Some? ==> r.value.Code(c) == SintAsUint(level)
  {
    var code := SintAsUint(level);
    if code == c.err then Some(Error)
    else if code == c.inf then Some(Info)
    else if code == c.msg then Some(Message)
    else if code == c.dbg then Some(Debug)
    else if code == c.wrn then Some(Warning)
    else None
  }

  /**
   * With distinct constants, a level's constant handed over as a signed
   * native value decodes to that level.
   */
  lemma FromFfiRoundTrip(c: LogCodes, l: LogLevel)
    requires c.Distinct() && c.InRange()
    ensures FromFfi(c, AsSint(l.Code(c))) == Some(l)
  {
    var n := l.Code(c);
    var s := AsSint(n);
    if n < I32Limit {
      assert s == n;
    } else {
      assert s == n - U32Limit;
    }
    assert SintAsUint(s) == n;
    CodeInjective(c, FromFfi(c, s).value, l);
  }

  /** What the native callback does with one message. */
  datatype Delivery = Delivered(level: LogLevel, message: string) | Panicked

  /**
   * `handler`: the logger pointer must not be null, the level must decode
   * and the message must be valid text (`text` is its decoding, if any);
   * any failure panics, otherwise the logger receives level and message.
   */
  function Handler(c: LogCodes, level: int, text: Option<string>, data: Ptr): (d: Delivery)
    requires -I32Limit <= level < I32Limit
    ensures d.Delivered? <==> data.Addr? && FromFfi(c, level).Some? && text.Some?
    ensures d.Delivered? ==> d.level.Code(c) == SintAsUint(level) && d.message == text.value
  {
    if data.Null? then Panicked
    else
      var decoded := FromFfi(c, level);
      if decoded.None? then Panicked
      else if text.None? then Panicked
      else Delivered(decoded.value, text.value)
  }

  /** Every level the native layer reports reaches the logger, given distinct constants. */
  lemma HandlerDeliversEveryLevel(c: LogCodes, l: LogLevel, message: string, data: nat)
    requires c.Distinct() && c.InRange()
    ensures Handler(c, AsSint(l.Code(c)), Some(message), Addr(data)) == Delivered(l, message)
  {
    FromFfiRoundTrip(c, l);
  }

  /**
   * The process-wide native logging state: the logger data pointer the
   * native layer calls back with, or `None` once logging is reset.
   */
  class NativeLog {
    var registered: Option<nat>

    constructor ()
      ensures registered == None
    {
      registered := None;
    }

    /** `aubio_log_set_function`: the handler and its data replace any earlier ones. */
    method SetFunction(data: nat)
      modifies this
      ensures registered == Some(data)
    {
      registered := Some(data);
    }

    /** `aubio_log_reset`: back to the native default output. */
    method Reset()
      modifies this
      ensures registered == None
    {
      registered := None;
    }
  }

  /** A boxed logger, registered with the native state while the value lives. */
  class Log {
    /** The address of the boxed logger, handed to the native layer as callback data. */
    const data: nat
    /** The native state the logger was registered with. */
    const native: NativeLog
    /** Whether the value has not been dropped yet. */
    var live: bool

    constructor Wrap(data: nat, native: NativeLog)
      ensures this.data == data && this.native == native && live
    {
      this.data := data;
      this.native := native;
      live := true;
    }

    /**
     * `From`: the logger is boxed (at `data`) and registered; whatever was
     * registered before is replaced.
     */
    static method From(native: NativeLog, data: nat) returns (l: Log)
      modifies native
      ensures fresh(l) && l.live && l.data == data && l.native == native
      ensures native.registered == Some(data)
    {
      native.SetFunction(data);
      l := new Log.Wrap(data, native);
    }

    /** `Drop`: the native state is reset, whoever registered last. */
    method Drop()
      requires live
      modifies this, native
      ensures !live && native.registered == None
    {
      native.Reset();
      live := false;
    }
  }

  /**
   * Only one logger is supported at a time: dropping an older `Log`
   * resets the native state even while a newer one is still alive.
   */
  method DropOlder(native: NativeLog, older: nat, newer: nat) returns (kept: Log)
    modifies native
    ensures kept.live && kept.data == newer
    ensures native.registered == None
  {
    var first := Log.From(native, older);
    kept := Log.From(native, newer);
    first.Drop();
  }
}
