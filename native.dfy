/**
 * The boundary with the native library as the wrappers see it: the
 * integer casts applied to arguments, and the calls a wrapper object
 * issues on the native handle it owns.
 */
module Native {

  /** One more than the largest native `uint_t` (32 bits). */
  const U32Limit: nat := 0x1_0000_0000

  /** One more than the largest native `sint_t`. */
  const I32Limit: int := 0x8000_0000

  /** `x as ffi::uint_t`: keep the low 32 bits. */
  function AsUint(n: nat): (r: nat)
    ensures r < U32Limit
    ensures n < U32Limit ==> r == n
    ensures (n - r) % U32Limit == 0
  {
    n % U32Limit
  }

  /**
   * The arguments are the given sizes as C receives them after `as
   * ffi::uint_t`: each below 2^32, equal to its size when that fits, and
   * otherwise the size reduced modulo 2^32.
   */
  predicate CastSizes(args: seq<Arg>, sizes: seq<nat>)
  {
    && |args| == |sizes|
    && forall i :: 0 <= i < |sizes| ==>
         && args[i].UInt?
         && args[i].u < U32Limit
         && (sizes[i] < U32Limit ==> args[i].u == sizes[i])
         && (sizes[i] - args[i].u) % U32Limit == 0
  }

  /** Sizes passed to a native routine, each cast with `as ffi::uint_t`. */
  function UIntArgs(sizes: seq<nat>): (args: seq<Arg>)
    ensures CastSizes(args, sizes)
  {
    seq(|sizes|, i requires 0 <= i < |sizes| => UInt(AsUint(sizes[i])))
  }

  /** `x as ffi::sint_t`: keep the low 32 bits, read as two's complement. */
  function AsSint(n: int): (r: int)
    ensures -I32Limit <= r < I32Limit
    ensures -I32Limit <= n < I32Limit ==> r == n
    ensures (n - r) % U32Limit == 0
  {
    var low := n % U32Limit;
    if low < I32Limit then low else low - U32Limit
  }

  /** `x as ffi::uint_t` for a signed native value: the same 32 bits read unsigned. */
  function SintAsUint(i: int): (r: nat)
    requires -I32Limit <= i < I32Limit
    ensures r < U32Limit
    ensures 0 <= i ==> r == i
    ensures i < 0 ==> r == i + U32Limit
  {
    if i < 0 then i + U32Limit else i
  }

  /** A native argument as the C routine receives it. */
  datatype Arg =
    | UInt(u: nat)
    | SInt(i: int)
    | Float(x: real)
    /** a `const char *`: the bytes of the allocation the pointer points into */
    | CStr(bytes: string)

  /** A call a wrapper makes on the native object it owns. */
  datatype Call =
    | Invoke(routine: string, args: seq<Arg>)
    /** the `del_aubio_*` destructor */
    | Delete

  /**
   * The ownership discipline on one native handle: it is created first,
   * and nothing, not even a second destructor call, follows `Delete`.
   */
  ghost predicate Disciplined(calls: seq<Call>)
  {
    && |calls| > 0
    && calls[0].Invoke?
    && forall i :: 0 <= i < |calls| - 1 ==> calls[i].Invoke?
  }

  /** The handle has not been released yet. */
  ghost predicate Live(calls: seq<Call>)
  {
    Delete !in calls
  }

  /** Number of destructor calls in a trace. */
  function Deletes(calls: seq<Call>): (n: nat)
    ensures n <= |calls|
    ensures n == 0 <==> Delete !in calls
  {
    if calls == [] then 0
    else (if calls[|calls| - 1] == Delete then 1 else 0) + Deletes(calls[..|calls| - 1])
  }

  /** Under the discipline the handle is released at most once, and exactly once when it is no longer live. */
  lemma {:induction false} FreedOnce(calls: seq<Call>)
    requires Disciplined(calls)
    ensures Deletes(calls) <= 1
    ensures !Live(calls) <==> Deletes(calls) == 1
    ensures !Live(calls) ==> calls[|calls| - 1] == Delete
  {
    var init := calls[..|calls| - 1];
    assert forall c :: c in init ==> c.Invoke?;
    assert Delete !in init;
    assert Deletes(init) == 0;
    if calls[|calls| - 1] != Delete {
      assert calls == init + [calls[|calls| - 1]];
      assert Delete !in calls;
    }
  }

  /** A call on a live handle keeps the discipline; the handle stays live unless the call is `Delete`. */
  lemma Append(calls: seq<Call>, c: Call)
    requires Disciplined(calls) && Live(calls)
    ensures Disciplined(calls + [c])
    ensures Live(calls + [c]) <==> c != Delete
  {
    assert forall i :: 0 <= i < |calls| ==> calls[i] in calls;
  }
}
