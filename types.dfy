/**
 * Error model, result aliases, the null test on native handles and the
 * null-terminated name contract shared by the variant enumerations.
 */
module Types {

  /** The closed set of failures a wrapper operation reports. */
  datatype Error = FailedInit | MismatchSize | InvalidArg

  /** `Display` text of each error kind. */
  function Message(e: Error): (m: string)
    ensures |m| > 0
  {
    match e
    case FailedInit => "creation error"
    case MismatchSize => "data size mismatch"
    case InvalidArg => "invalid argument"
  }

  /** The text `Display` prints for each error kind. */
  lemma MessageTexts()
    ensures Message(FailedInit) == "creation error"
    ensures Message(MismatchSize) == "data size mismatch"
    ensures Message(InvalidArg) == "invalid argument"
  {
  }

  /** Different error kinds are never displayed alike. */
  lemma MessageInjective(a: Error, b: Error)
    ensures Message(a) == Message(b) ==> a == b
  {
  }

  datatype Option<+T> = None | Some(value: T)

  datatype Result<+T> = Ok(value: T) | Err(error: Error)

  /** A result without payload. */
  type Status = Result<()>

  /** A raw pointer returned by a native constructor. */
  datatype Ptr = Null | Addr(addr: nat)

  /** `check_init`: a null handle means the native object could not be created. */
  function CheckInit(p: Ptr): (r: Status)
    ensures r.Err? <==> p.Null?
    ensures r.Err? ==> r.error == FailedInit
  {
    if p.Null? then Err(FailedInit) else Ok(())
  }

  /**
   * The documented rule for `as_native_str`: the name ends with one '\0'
   * and holds no other.
   */
  predicate Terminated(s: string)
  {
    |s| > 0 && s[|s| - 1] == '\0' && '\0' !in s[..|s| - 1]
  }

  /** `as_rust_str`: the native name without its last character. */
  function AsRustStr(native: string): (r: string)
    requires |native| > 0
    ensures |r| == |native| - 1
    ensures r + [native[|native| - 1]] == native
  {
    native[..|native| - 1]
  }

  /** For a name that follows the rule, appending the terminator gives it back. */
  lemma RustStrRoundTrip(native: string)
    requires Terminated(native)
    ensures AsRustStr(native) + "\0" == native
    ensures '\0' !in AsRustStr(native)
  {
  }

  /**
   * `as_native_cstr` hands over a pointer to the first byte of the native
   * name; the bytes the native layer may read from it are the whole name.
   */
  function AsNativeCstr(native: string): (bytes: string)
    ensures |bytes| == |native| && bytes[..] == native
  {
    native
  }

  /**
   * What a C routine reads as a string from a pointer into an allocation
   * holding `mem`: the bytes before the first '\0', or None when the
   * allocation holds no '\0' and the routine would read past its end.
   */
  function CStringAt(mem: string): (r: Option<string>)
    ensures r.Some? <==> '\0' in mem
    ensures r.Some? ==> '\0' !in r.value && |r.value| < |mem|
    ensures r.Some? ==> mem[..|r.value| + 1] == r.value + "\0"
  {
    if |mem| == 0 then None
    else if mem[0] == '\0' then Some("")
    else
      match CStringAt(mem[1..])
      case None => None
      case Some(rest) => Some([mem[0]] + rest)
  }

  /** A terminated native name is read back by C as exactly its Rust name. */
  lemma NativeNameReadsAsRustName(native: string)
    requires Terminated(native)
    ensures CStringAt(AsNativeCstr(native)) == Some(AsRustStr(native))
  {
    var r := CStringAt(native);
    assert native[|native| - 1] == '\0';
    assert r.Some?;
    var n := |r.value|;
    assert native[n] == '\0';
    assert native[..n + 1] == r.value + "\0";
    assert r.value == native[..n];
  }
}

/**
 * The older error model, with an allocation failure instead of an
 * initialisation failure, and `check_alloc`.
 */
module LegacyTypes {
  import Types

  datatype Error = Allocation | MismatchSize | InvalidArg

  /** `Display` text of each error kind. */
  function Message(e: Error): (m: string)
    ensures |m| > 0
  {
    match e
    case Allocation => "allocation error"
    case MismatchSize => "data size mismatch"
    case InvalidArg => "invalid argument"
  }

  /** The text `Display` prints for each error kind of the older revision. */
  lemma MessageTexts()
    ensures Message(Allocation) == "allocation error"
    ensures Message(MismatchSize) == "data size mismatch"
    ensures Message(InvalidArg) == "invalid argument"
  {
  }

  /** The three messages are pairwise distinct. */
  lemma MessageInjective(a: Error, b: Error)
    ensures Message(a) == Message(b) ==> a == b
  {
  }

  datatype Result<+T> = Ok(value: T) | Err(error: Error)

  type Status = Result<()>

  /**
   * `check_alloc`: a null pointer is an allocation failure and nothing
   * else; any other pointer passes.
   */
  function CheckAlloc(p: Types.Ptr): (r: Status)
    ensures r.Err? <==> p.Null?
    ensures r.Err? ==> r.error == Allocation
    ensures r.Ok? ==> r == Ok(())
  {
    if p.Null? then Err(Allocation) else Ok(())
  }
}
