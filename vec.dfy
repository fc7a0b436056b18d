/**
 * Borrowed buffer views and the size-check policy.
 *
 * A view is the descriptor the native layer receives: a 32-bit length
 * and one pointer per half. Immutable views carry the borrowed samples as
 * values; mutable views carry the caller's buffer, a start offset and the
 * slice length, since the native routine writes through them.
 */
module Vec {
  import opened Types
  import opened Native

  /** Whether the crate is built with the `check-size` feature. */
  const CheckSizeFeature: bool := true

  /**
   * The size-check policy: with checks enabled a view shorter than the
   * required minimum is a size mismatch; with checks disabled every view
   * passes.
   */
  function CheckLength(enabled: bool, length: nat, min: nat): (r: Status)
    ensures r.Err? <==> enabled && length < min
    ensures r.Err? ==> r.error == MismatchSize
    ensures !enabled ==> r == Ok(())
  {
    if enabled && length < min then Err(MismatchSize) else Ok(())
  }

  /** Two checks joined by `?`: the first failure wins, and both must pass. */
  function Then(first: Status, second: Status): (r: Status)
    ensures r.Ok? <==> first.Ok? && second.Ok?
    ensures first.Err? ==> r == first
    ensures first.Ok? ==> r == second
  {
    if first.Err? then first else second
  }

  /** A caller-owned contiguous run of samples inside an array. */
  datatype Slice = Slice(buf: array<real>, start: nat, len: nat) {
    predicate Valid()
    {
      start + len <= buf.Length
    }
  }

  /** A whole array as a mutable slice. */
  function Whole(a: array<real>): (s: Slice)
    ensures s.Valid() && s.buf == a && s.len == a.Length
  {
    Slice(a, 0, a.Length)
  }

  /** Immutable real vector view. */
  datatype FVec = FVec(length: nat, data: seq<real>) {

    /** A real view built from a slice records the slice length cast to `uint_t`. */
    static function From(data: seq<real>): (v: FVec)
      ensures v.data == data
      ensures v.length == AsUint(|data|) && v.length <= |data|
      ensures |data| < U32Limit ==> v.Size() == |data|
    {
      FVec(AsUint(|data|), data)
    }

    function Size(): nat
    {
      length
    }

    function CheckSize(min: nat): (r: Status)
      ensures r.Err? <==> CheckSizeFeature && length < min
      ensures r.Err? ==> r.error == MismatchSize
    {
      CheckLength(CheckSizeFeature, length, min)
    }
  }

  /** Mutable real vector view. */
  datatype FVecMut = FVecMut(length: nat, data: Slice) {

    static function From(data: Slice): (v: FVecMut)
      requires data.Valid()
      ensures v.data == data && v.Sound()
      ensures v.length == AsUint(data.len)
      ensures data.len < U32Limit ==> v.Size() == data.len
    {
      FVecMut(AsUint(data.len), data)
    }

    /** The descriptor never reaches past the borrowed slice. */
    predicate Sound()
    {
      data.Valid() && length <= data.len
    }

    function Size(): nat
    {
      length
    }

    function CheckSize(min: nat): (r: Status)
      ensures r.Err? <==> CheckSizeFeature && length < min
      ensures r.Err? ==> r.error == MismatchSize
    {
      CheckLength(CheckSizeFeature, length, min)
    }
  }

  /** Immutable complex (norm and phase) vector view. */
  datatype CVec = CVec(length: nat, norm: seq<real>, phas: seq<real>) {

    /**
     * `from_parts`: with size checks, halves of different lengths are a
     * mismatch; otherwise the view counts as many bins as the norm half.
     */
    static function FromParts(norm: seq<real>, phas: seq<real>): (r: Result<CVec>)
      ensures r.Err? <==> CheckSizeFeature && |norm| != |phas|
      ensures r.Err? ==> r.error == MismatchSize
      ensures r.Ok? ==> r.value.norm == norm && r.value.phas == phas
      ensures r.Ok? ==> r.value.length == AsUint(|norm|)
    {
      if CheckSizeFeature && |norm| != |phas| then Err(MismatchSize)
      else Ok(CVec(AsUint(|norm|), norm, phas))
    }

    /**
     * `From<&[f32]>`: the first half of the buffer is the norm and the
     * rest the phase. The `unwrap` panics on an odd length when size checks
     * are on, which callers must avoid.
     */
    static function From(data: seq<real>): (v: CVec)
      requires !CheckSizeFeature || |data| % 2 == 0
      ensures v.norm == data[..|data| / 2] && v.phas == data[|data| / 2..]
      ensures v.length == AsUint(|data| / 2)
      ensures v.Sound()
    {
      FromParts(data[..|data| / 2], data[|data| / 2..]).value
    }

    /** Both halves hold at least `length` samples. */
    predicate Sound()
    {
      length <= |norm| && length <= |phas|
    }

    function Size(): nat
    {
      length
    }

    /** `norm()`: the first `size()` samples of the norm half. */
    function Norm(): (s: seq<real>)
      requires length <= |norm|
      ensures |s| == Size()
      ensures forall i :: 0 <= i < |s| ==> s[i] == norm[i]
    {
      norm[..length]
    }

    /** `phas()`: the first `size()` samples of the phase half. */
    function Phas(): (s: seq<real>)
      requires length <= |phas|
      ensures |s| == Size()
      ensures forall i :: 0 <= i < |s| ==> s[i] == phas[i]
    {
      phas[..length]
    }

    function CheckSize(min: nat): (r: Status)
      ensures r.Err? <==> CheckSizeFeature && length < min
      ensures r.Err? ==> r.error == MismatchSize
    {
      CheckLength(CheckSizeFeature, length, min)
    }
  }

  /**
   * Mutable complex vector view; a half is None where the descriptor holds
   * a null pointer.
   */
  datatype CVecMut = CVecMut(length: nat, norm: Option<Slice>, phas: Option<Slice>) {

    static function FromParts(norm: Slice, phas: Slice): (r: Result<CVecMut>)
      requires norm.Valid() && phas.Valid()
      ensures r.Err? <==> CheckSizeFeature && norm.len != phas.len
      ensures r.Err? ==> r.error == MismatchSize
      ensures r.Ok? ==> r.value.norm == Some(norm) && r.value.phas == Some(phas)
      ensures r.Ok? ==> r.value.length == AsUint(norm.len)
      ensures r.Ok? && CheckSizeFeature ==> r.value.Sound()
    {
      if CheckSizeFeature && norm.len != phas.len then Err(MismatchSize)
      else Ok(CVecMut(AsUint(norm.len), Some(norm), Some(phas)))
    }

    /** `From<&mut [f32]>`: split the slice at half its length. */
    static function From(data: Slice): (v: CVecMut)
      requires data.Valid()
      requires !CheckSizeFeature || data.len % 2 == 0
      ensures v.norm == Some(Slice(data.buf, data.start, data.len / 2))
      ensures v.phas == Some(Slice(data.buf, data.start + data.len / 2, data.len - data.len / 2))
      ensures v.length == AsUint(data.len / 2)
      ensures v.Sound()
    {
      var h := data.len / 2;
      FromParts(Slice(data.buf, data.start, h), Slice(data.buf, data.start + h, data.len - h)).value
    }

    /** `from_norm`: a view with the norm half only; the phase pointer is null. */
    static function FromNorm(norm: Slice): (v: CVecMut)
      requires norm.Valid()
      ensures v.norm == Some(norm) && v.phas.None?
      ensures v.length == AsUint(norm.len)
      ensures v.Sound()
    {
      CVecMut(AsUint(norm.len), Some(norm), None)
    }

    /** `from_phas`: a view with the phase half only; the norm pointer is null. */
    static function FromPhas(phas: Slice): (v: CVecMut)
      requires phas.Valid()
      ensures v.phas == Some(phas) && v.norm.None?
      ensures v.length == AsUint(phas.len)
      ensures v.Sound()
    {
      CVecMut(AsUint(phas.len), None, Some(phas))
    }

    /** Every present half lies inside its array and holds `length` samples. */
    predicate Sound()
    {
      && (norm.Some? ==> norm.value.Valid() && length <= norm.value.len)
      && (phas.Some? ==> phas.value.Valid() && length <= phas.value.len)
    }

    /** The arrays the view borrows. */
    function Arrays(): set<array<real>>
    {
      (if norm.Some? then {norm.value.buf} else {}) + (if phas.Some? then {phas.value.buf} else {})
    }

    /** Whether position `i` of `a` lies in one of the view's `length`-long windows. */
    predicate InWindow(a: array<real>, i: int)
    {
      || (norm.Some? && norm.value.buf == a && norm.value.start <= i < norm.value.start + length)
      || (phas.Some? && phas.value.buf == a && phas.value.start <= i < phas.value.start + length)
    }

    function Size(): nat
    {
      length
    }

    function CheckSize(min: nat): (r: Status)
      ensures r.Err? <==> CheckSizeFeature && length < min
      ensures r.Err? ==> r.error == MismatchSize
    {
      CheckLength(CheckSizeFeature, length, min)
    }
  }

  /** Mutable complex view exposing the norm half only (dereferences to a `CVecMut`). */
  datatype CVecNormMut = CVecNormMut(cvec: CVecMut) {
    static function From(norm: Slice): (v: CVecNormMut)
      requires norm.Valid()
      ensures v.cvec.norm == Some(norm) && v.cvec.phas.None?
      ensures v.cvec.length == AsUint(norm.len) && v.cvec.Sound()
    {
      CVecNormMut(CVecMut.FromNorm(norm))
    }
  }

  /** Mutable complex view exposing the phase half only (dereferences to a `CVecMut`). */
  datatype CVecPhasMut = CVecPhasMut(cvec: CVecMut) {
    static function From(phas: Slice): (v: CVecPhasMut)
      requires phas.Valid()
      ensures v.cvec.phas == Some(phas) && v.cvec.norm.None?
      ensures v.cvec.length == AsUint(phas.len) && v.cvec.Sound()
    {
      CVecPhasMut(CVecMut.FromPhas(phas))
    }
  }

  /**
   * Without size checks, `from_parts` accepts a phase half shorter than
   * the norm half, and the view's `phas()` would reach past it.
   */
  lemma UncheckedPartsOverrun()
    ensures var v := CVec(AsUint(2), [0.0, 0.0], [0.0]);
      CheckLength(false, 2, 2) == Ok(()) && !v.Sound() && v.length > |v.phas|
  {
  }

  /** Under size checks every view `from_parts` or `From` yields is sound. */
  lemma CheckedViewsSound(norm: seq<real>, phas: seq<real>)
    requires CheckSizeFeature
    ensures CVec.FromParts(norm, phas).Ok? ==> CVec.FromParts(norm, phas).value.Sound()
  {
  }

  /** An even buffer split by `From` gives equally long halves of half its length. */
  lemma SplitHalves(data: seq<real>)
    requires |data| % 2 == 0 && |data| / 2 < U32Limit
    ensures CVec.From(data).Size() == |data| / 2
    ensures CVec.From(data).Norm() == data[..|data| / 2]
    ensures CVec.From(data).Phas() == data[|data| / 2..]
  {
  }

  /** An odd buffer splits into halves one sample apart, so checked `from_parts` refuses them. */
  lemma OddSplitRefused(data: seq<real>)
    requires |data| % 2 == 1
    ensures |data[|data| / 2..]| == |data[..|data| / 2]| + 1
    ensures CheckSizeFeature ==> CVec.FromParts(data[..|data| / 2], data[|data| / 2..]) == Err(MismatchSize)
  {
  }

  /**
   * The native routine filling a real output view: it may write any
   * values, but only inside the view's first `length` samples.
   */
  method WriteReal(v: FVecMut)
    requires v.Sound()
    modifies v.data.buf
    ensures SameOutside(old(v.data.buf[..]), v.data.buf[..], v.data.start, v.length)
  {
    FillWindow(v.data, v.length);
  }

  /**
   * The native routine filling a complex output view: it writes the
   * present halves, and nothing outside their `length`-long windows.
   */
  method WriteComplex(v: CVecMut)
    requires v.Sound()
    modifies v.Arrays()
    ensures forall a, i :: a in v.Arrays() && 0 <= i < a.Length && !v.InWindow(a, i) ==> a[i] == old(a[i])
  {
    if v.norm.Some? {
      FillWindow(v.norm.value, v.length);
    }
    if v.phas.Some? {
      FillWindow(v.phas.value, v.length);
    }
  }

  /** `after` differs from `before` at most in the `n` positions from `lo`. */
  ghost predicate SameOutside(before: seq<real>, after: seq<real>, lo: nat, n: nat)
  {
    && |before| == |after|
    && forall i :: 0 <= i < |after| && !(lo <= i < lo + n) ==> after[i] == before[i]
  }

  /**
   * Overwrite the first `n` samples of a slice with values the native layer
   * chooses. The wrappers have no such loop: this stands for the one native
   * write, whose values the model leaves arbitrary.
   */
  method FillWindow(s: Slice, n: nat)
    requires s.Valid() && n <= s.len
    modifies s.buf
    ensures forall i :: 0 <= i < s.buf.Length && !(s.start <= i < s.start + n) ==> s.buf[i] == old(s.buf[i])
  {
    var k := 0;
    while k < n
      invariant 0 <= k <= n
      invariant forall i :: 0 <= i < s.buf.Length && !(s.start <= i < s.start + k) ==> s.buf[i] == old(s.buf[i])
    {
      var x: real :| true;
      s.buf[s.start + k] := x;
      k := k + 1;
    }
  }
}
