/**
 * The `farr!` and `carr!` buffer-allocation macros: zeroed sample arrays
 * for real signals and for complex spectra (two halves of `n/2 + 1` bins).
 */
module Macros {
  import opened Types
  import opened Native
  import opened Vec

  /** `farr!(n)`: `n` zero samples. */
  function Farr(n: nat): (s: seq<real>)
    ensures |s| == n
    ensures forall i :: 0 <= i < n ==> s[i] == 0.0
  {
    seq(n, _ => 0.0)
  }

  /** `carr!(n)`: `n + 2` zero samples, room for the norm and phase of `n/2 + 1` bins. */
  function Carr(n: nat): (s: seq<real>)
    ensures |s| == n + 2
    ensures forall i :: 0 <= i < n + 2 ==> s[i] == 0.0
  {
    Farr(n + 2)
  }

  /** A fresh array holding the given samples, as the macros' stack arrays are. */
  method NewBuffer(init: seq<real>) returns (a: array<real>)
    ensures fresh(a) && a[..] == init
  {
    a := new real[|init|](i requires 0 <= i < |init| => init[i]);
  }

  /** For even `n`, a `carr!(n)` spectrum seen as a complex view holds `n/2 + 1` bins per half. */
  lemma CarrBins(n: nat)
    requires n % 2 == 0 && n / 2 + 1 < U32Limit
    ensures CVec.From(Carr(n)).Size() == n / 2 + 1
    ensures |CVec.From(Carr(n)).Norm()| == |CVec.From(Carr(n)).Phas()| == n / 2 + 1
  {
    SplitHalves(Carr(n));
  }

  /**
   * For odd `n`, `carr!(n)` has an odd length, so its halves differ by one
   * sample and the checked conversion refuses them.
   */
  lemma CarrOdd(n: nat)
    requires n % 2 == 1
    ensures |Carr(n)| % 2 == 1
    ensures CheckSizeFeature ==>
      CVec.FromParts(Carr(n)[..|Carr(n)| / 2], Carr(n)[|Carr(n)| / 2..]) == Err(MismatchSize)
  {
    OddSplitRefused(Carr(n));
  }

  /**
   * The spectrum of an `n`-point transform has `n/2 + 1` bins, which is
   * fewer than `n` once `n` is 4 or more: a `carr!(n)` spectrum fails any
   * check that asks for `n` bins.
   */
  lemma CarrBelowWindow(n: nat)
    requires n % 2 == 0 && n >= 4 && n / 2 + 1 < U32Limit
    ensures CVec.From(Carr(n)).CheckSize(n) == (if CheckSizeFeature then Err(MismatchSize) else Ok(()))
  {
    CarrBins(n);
  }
}
