/**
 * Logging in the newer revision: levels decoded by a range test, a single
 * global slot holding the current `Log`, whose replacement drops the old
 * value (resetting native logging) before the new logger registers, and
 * the mapping of levels onto the `log` crate's levels.
 */
module Log {
  import opened Types
  import opened Native
  import opened LogLevels

  /**
   * `from_ffi`: a native level below the last-level marker is the level
   * with that constant (the enumeration's numbering makes the reading
   * sound); any other value is `None`.
   */
  function FromFfi(c: LogCodes, level: nat): (r: Option<LogLevel>)
    requires c.Dense()
    ensures r.Some? <==> level < c.last
    ensures r.Some? ==> r.value.Code(c) == level
  {
    if level < c.last then
      DenseCovers(c, level);
      if level == c.err then Some(Error)
      else if level == c.inf then Some(Info)
      else if level == c.msg then Some(Message)
      else if level == c.dbg then Some(Debug)
      else Some(Warning)
    else None
  }

  /** Every level's constant decodes to that level. */
  lemma FromFfiRoundTrip(c: LogCodes, l: LogLevel)
    requires c.Dense()
    ensures FromFfi(c, l.Code(c)) == Some(l)
  {
    CodeBelowLast(c, l);
    CodeInjective(c, FromFfi(c, l.Code(c)).value, l);
  }

  /** With the header's numbering, 0 to 4 are the levels in declaration order and 5 is refused. */
  lemma HeaderLevels()
    ensures FromFfi(HeaderCodes, 0) == Some(Error) && FromFfi(HeaderCodes, 1) == Some(Info)
    ensures FromFfi(HeaderCodes, 2) == Some(Message) && FromFfi(HeaderCodes, 3) == Some(Debug)
    ensures FromFfi(HeaderCodes, 4) == Some(Warning) && FromFfi(HeaderCodes, 5) == None
  {
    HeaderCodesDense();
  }

  /** What the native callback does with one message. */
  datatype Delivery = Delivered(level: LogLevel, message: string) | Panicked

  /**
   * `handler`: the logger pointer must not be null, the signed level,
   * read as unsigned, must decode, and the message must be valid text
   * (`text` is its decoding, if any); any failure panics.
   */
  function Handler(c: LogCodes, level: int, text: Option<string>, data: Ptr): (d: Delivery)
    requires c.Dense() && -I32Limit <= level < I32Limit
    ensures d.Delivered? <==> data.Addr? && 0 <= level < c.last && text.Some?
    ensures d.Delivered? ==> d.level.Code(c) == level && d.message == text.value
  {
    if data.Null? then Panicked
    else
      var decoded := FromFfi(c, SintAsUint(level));
      if decoded.None? then Panicked
      else if text.None? then Panicked
      else Delivered(decoded.value, text.value)
  }

  /** The levels of the `log` crate. */
  datatype Level = LError | LWarn | LInfo | LDebug | LTrace

  /** `From<LogLevel> for Level`: messages and infos both become infos. */
  function ToLevel(l: LogLevel): (r: Level)
    ensures r != LTrace
    ensures l.Error? <==> r == LError
    ensures l.Warning? <==> r == LWarn
    ensures l.Debug? <==> r == LDebug
    ensures l.Message? || l.Info? <==> r == LInfo
  {
    match l
    case Error => LError
    case Warning => LWarn
    case Message => LInfo
    case Info => LInfo
    case Debug => LDebug
  }

  /** The mapping merges exactly one pair of levels: message and info. */
  lemma ToLevelMerges(a: LogLevel, b: LogLevel)
    ensures ToLevel(a) == ToLevel(b) <==> a == b || {a, b} == {Message, Info}
  {
    if {a, b} == {Message, Info} {
      assert a in {Message, Info} && b in {Message, Info};
    }
  }

  /** An event of the native logging state. */
  datatype Event = SetFunction(data: nat) | LogReset

  /**
   * The global slot and the native state together: the boxed logger the
   * slot holds (its address), the logger data registered natively, and
   * the native events so far.
   */
  datatype State = State(slot: Option<nat>, registered: Option<nat>, events: seq<Event>)

  /** The state before the first `set`: an empty slot and nothing registered. */
  const Initial: State := State(None, None, [])

  /** The slot and the native registration agree. */
  predicate Coherent(s: State) {
    s.slot == s.registered
  }

  /** Dropping the slot's `Log` (if any): the slot empties and native logging is reset. */
  function ClearSlot(s: State): (t: State)
    ensures t.slot == None
    ensures s.slot.Some? ==> t.registered == None && t.events == s.events + [LogReset]
    ensures s.slot.None? ==> t == s
  {
    if s.slot.Some? then State(None, None, s.events + [LogReset]) else s
  }

  /**
   * `set`: the old `Log` is dropped first, then the new logger (boxed at
   * `data`) registers and the slot holds it.
   */
  function StepSet(s: State, data: nat): (t: State)
    ensures t.slot == Some(data) && t.registered == Some(data)
    ensures t.events == s.events + (if s.slot.Some? then [LogReset, SetFunction(data)] else [SetFunction(data)])
  {
    var cleared := ClearSlot(s);
    State(Some(data), Some(data), cleared.events + [SetFunction(data)])
  }

  /** `reset`: the slot empties, and a `Log` it held resets native logging. */
  function StepReset(s: State): (t: State)
    ensures t.slot == None
    ensures s.slot.Some? ==> t.registered == None && t.events == s.events + [LogReset]
    ensures s.slot.None? ==> t == s
  {
    ClearSlot(s)
  }

  /** An operation on the global logger. */
  datatype Op = Set(data: nat) | ResetOp

  function Step(s: State, op: Op): State {
    match op
    case Set(data) => StepSet(s, data)
    case ResetOp => StepReset(s)
  }

  function Run(s: State, ops: seq<Op>): State
    decreases |ops|
  {
    if ops == [] then s else Run(Step(s, ops[0]), ops[1..])
  }

  /** Each operation keeps the slot and the native registration in agreement. */
  lemma StepCoherent(s: State, op: Op)
    requires Coherent(s)
    ensures Coherent(Step(s, op))
  {
  }

  /**
   * Along any sequence of `set` and `reset` calls from the start, the
   * native layer calls back exactly the logger the slot holds, and none
   * once the slot is empty.
   */
  lemma {:induction false} RunCoherent(s: State, ops: seq<Op>)
    requires Coherent(s)
    ensures Coherent(Run(s, ops))
    decreases |ops|
  {
    if ops != [] {
      StepCoherent(s, ops[0]);
      RunCoherent(Step(s, ops[0]), ops[1..]);
    }
  }

  /** After the last `set`, its logger is both held and registered, whatever came before. */
  lemma LastSetWins(s: State, ops: seq<Op>, data: nat)
    ensures Run(s, ops + [Set(data)]).slot == Some(data)
    ensures Run(s, ops + [Set(data)]).registered == Some(data)
  {
    RunSnoc(s, ops, Set(data));
  }

  lemma {:induction false} RunSnoc(s: State, ops: seq<Op>, op: Op)
    ensures Run(s, ops + [op]) == Step(Run(s, ops), op)
    decreases |ops|
  {
    if ops == [] {
      assert [] + [op] == [op];
    } else {
      assert (ops + [op])[1..] == ops[1..] + [op];
      RunSnoc(Step(s, ops[0]), ops[1..], op);
    }
  }

  /**
   * The order matters: had the new `Log` been created (and registered)
   * before the old one was dropped, the old one's reset would come last
   * and leave no logger registered while the slot holds one.
   */
  function StepSetNaive(s: State, data: nat): (t: State)
  {
    var registered := State(s.slot, Some(data), s.events + [SetFunction(data)]);
    var dropped := if s.slot.Some? then State(None, None, registered.events + [LogReset]) else registered;
    State(Some(data), dropped.registered, dropped.events)
  }

  lemma NaiveSetLosesRegistration(s: State, data: nat)
    requires s.slot.Some?
    ensures StepSetNaive(s, data).slot == Some(data)
    ensures StepSetNaive(s, data).registered == None
    ensures !Coherent(StepSetNaive(s, data)) && Coherent(StepSet(s, data))
  {
  }

  /** The global slot, with the native logging state it drives. */
  class GlobalLogger {
    /** The address of the boxed logger the slot's `Log` holds, if any. */
    var slot: Option<nat>
    /** The logger data the native layer calls back with, if any. */
    var registered: Option<nat>
    /** The native events so far. */
    ghost var events: seq<Event>

    ghost function Current(): State
      reads this
    {
      State(slot, registered, events)
    }

    /** The slot and the native registration agree. */
    ghost predicate Valid()
      reads this
    {
      Coherent(Current())
    }

    /** The slot as first used: empty, with nothing registered. */
    constructor ()
      ensures Current() == Initial && Valid()
    {
      slot := None;
      registered := None;
      events := [];
    }

    /** Dropping a `Log`: `aubio_log_reset`. */
    method NativeReset()
      modifies this
      ensures slot == old(slot) && registered == None && events == old(events) + [LogReset]
    {
      registered := None;
      events := events + [LogReset];
    }

    /** `Log::new`: `aubio_log_set_function` with the boxed logger's address. */
    method NativeRegister(data: nat)
      modifies this
      ensures slot == old(slot) && registered == Some(data) && events == old(events) + [SetFunction(data)]
    {
      registered := Some(data);
      events := events + [SetFunction(data)];
    }

    /** `set`: clear a held `Log` first (dropping it), then store a new one. */
    method Set(data: nat)
      requires Valid()
      modifies this
      ensures Valid() && Current() == StepSet(old(Current()), data)
    {
      if slot.Some? {
        NativeReset();
        slot := None;
      }
      NativeRegister(data);
      slot := Some(data);
    }

    /** `reset`: the slot empties, dropping the `Log` it held. */
    method Reset()
      requires Valid()
      modifies this
      ensures Valid() && Current() == StepReset(old(Current()))
    {
      if slot.Some? {
        NativeReset();
      }
      slot := None;
    }
  }
}
