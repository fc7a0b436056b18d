/**
 * The library's log levels: five variants, each standing for a native
 * level constant, with the names both wrapper revisions display.
 */
module LogLevels {
  import opened Native

  /** The native level constants, as the bindings expose them (32-bit unsigned). */
  datatype LogCodes = LogCodes(err: nat, inf: nat, msg: nat, dbg: nat, wrn: nat, last: nat) {
    /** All six constants fit the native unsigned width. */
    predicate InRange() {
      err < U32Limit && inf < U32Limit && msg < U32Limit && dbg < U32Limit && wrn < U32Limit && last < U32Limit
    }

    /** The five level constants are pairwise different. */
    predicate Distinct() {
      err != inf && err != msg && err != dbg && err != wrn
      && inf != msg && inf != dbg && inf != wrn
      && msg != dbg && msg != wrn
      && dbg != wrn
    }

    /**
     * The level constants are exactly the numbers below the last-level
     * marker, as an enumeration numbered from 0 has them.
     */
    predicate Dense() {
      Distinct() && last == 5 && {err, inf, msg, dbg, wrn} == {0, 1, 2, 3, 4}
    }
  }

  /**
   * The constants of the native header, numbered from 0 in the order the
   * enumeration lists the levels (error, info, message, debug, warning),
   * with the last-level marker after them.
   */
  const HeaderCodes: LogCodes := LogCodes(0, 1, 2, 3, 4, 5)

  /** The header's numbering is dense and within range. */
  lemma HeaderCodesDense()
    ensures HeaderCodes.Dense() && HeaderCodes.InRange()
  {
  }

  /** The logging levels. */
  datatype LogLevel = Error | Info | Message | Debug | Warning {

    /** The native constant the variant stands for. */
    function Code(c: LogCodes): (n: nat)
      ensures this.Error? ==> n == c.err
      ensures this.Info? ==> n == c.inf
      ensures this.Message? ==> n == c.msg
      ensures this.Debug? ==> n == c.dbg
      ensures this.Warning? ==> n == c.wrn
    {
      match this
      case Error => c.err
      case Info => c.inf
      case Message => c.msg
      case Debug => c.dbg
      case Warning => c.wrn
    }

    /** `as_ref`: the displayed name. */
    function Name(): (s: string)
      ensures |s| > 0
    {
      match this
      case Error => "ERROR"
      case Info => "INFO"
      case Message => "MESSAGE"
      case Debug => "DEBUG"
      case Warning => "WARNING"
    }
  }

  /** Each level's displayed name, as `as_ref` spells it. */
  lemma LevelNames()
    ensures Error.Name() == "ERROR" && Info.Name() == "INFO" && Message.Name() == "MESSAGE"
    ensures Debug.Name() == "DEBUG" && Warning.Name() == "WARNING"
  {
  }

  /** Different levels are displayed differently. */
  lemma NameInjective(a: LogLevel, b: LogLevel)
    ensures a.Name() == b.Name() <==> a == b
  {
  }

  /** With distinct constants, different levels stand for different constants. */
  lemma CodeInjective(c: LogCodes, a: LogLevel, b: LogLevel)
    requires c.Distinct()
    ensures a.Code(c) == b.Code(c) <==> a == b
  {
  }

  /** Under a dense numbering every level's constant lies below the last-level marker. */
  lemma CodeBelowLast(c: LogCodes, l: LogLevel)
    requires c.Dense()
    ensures l.Code(c) < c.last
  {
  }

  /** Under a dense numbering every number below the marker is some level's constant. */
  lemma DenseCovers(c: LogCodes, n: nat)
    requires c.Dense() && n < c.last
    ensures n == c.err || n == c.inf || n == c.msg || n == c.dbg || n == c.wrn
  {
    assert n in {0, 1, 2, 3, 4};
    assert n in {c.err, c.inf, c.msg, c.dbg, c.wrn};
  }
}
