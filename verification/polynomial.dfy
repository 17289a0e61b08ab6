/** The polynomial model of arbitrary order, scripts/models.py:65-75, at one
    evaluation point. */
module Polynomial {

  /** t raised to a natural power; Pow(t, 0) is 1 for every t, as
      Python's 0**0 is. */
  function Pow(t: real, k: nat): real
  {
    if k == 0 then 1.0 else t * Pow(t, k - 1)
  }

  /** The sum of coeffs[i] * t^i, accumulated from the lowest power up as
      the source's loop does. */
  function PolySum(t: real, coeffs: seq<real>): real
  {
    if coeffs == [] then 0.0
    else PolySum(t, coeffs[..|coeffs| - 1]) + coeffs[|coeffs| - 1] * Pow(t, |coeffs| - 1)
  }

  /** n_model_poly: out starts at zero and each coefficient p is added as
      p * t^power, with power counting up from 0. */
  method NModelPoly(t: real, params: seq<real>) returns (out: real)
    ensures out == PolySum(t, params)
    ensures params == [] ==> out == 0.0
  {
    var power := 0;
    out := 0.0;
    var i := 0;
    while i < |params|
      invariant 0 <= i <= |params| && power == i
      invariant out == PolySum(t, params[..i])
    {
      assert params[..i + 1][..i] == params[..i];
      out := out + params[i] * Pow(t, power);
      power := power + 1;
      i := i + 1;
    }
    assert params[..|params|] == params;
  }

  /** Horner's rule, an independent way to evaluate the same polynomial. */
  function Horner(t: real, coeffs: seq<real>): real
  {
    if coeffs == [] then 0.0 else coeffs[0] + t * Horner(t, coeffs[1..])
  }

  lemma Factor(t: real, x: real, r: real, y: real)
    ensures t * x + r * (t * y) == t * (x + r * y)
  {
  }

  /** Prepending a constant term shifts the rest of the coefficients up by
      one power. */
  lemma {:induction false} PolySumCons(t: real, c: real, rest: seq<real>)
    ensures PolySum(t, [c] + rest) == c + t * PolySum(t, rest)
  {
    if rest == [] {
      assert [c] + rest == [c];
      assert [c][..0] == [];
    } else {
      var n := |rest| - 1;
      var r := rest[n];
      var all := [c] + rest;
      assert all[..|all| - 1] == [c] + rest[..n];
      PolySumCons(t, c, rest[..n]);
      var x, y := PolySum(t, rest[..n]), Pow(t, n);
      assert Pow(t, n + 1) == t * y;
      assert PolySum(t, all) == PolySum(t, [c] + rest[..n]) + r * Pow(t, n + 1);
      assert PolySum(t, rest) == x + r * y;
      Factor(t, x, r, y);
    }
  }

  /** The loop's sum is the polynomial Horner's rule evaluates. */
  lemma {:induction false} PolySumIsHorner(t: real, coeffs: seq<real>)
    ensures PolySum(t, coeffs) == Horner(t, coeffs)
  {
    if coeffs != [] {
      assert coeffs == [coeffs[0]] + coeffs[1..];
      PolySumCons(t, coeffs[0], coeffs[1..]);
      PolySumIsHorner(t, coeffs[1..]);
    }
  }

  /** Appending zero coefficients (higher orders with no weight) leaves the
      value unchanged. */
  lemma {:induction false} TrailingZerosIgnored(t: real, coeffs: seq<real>, zeros: nat)
    ensures PolySum(t, coeffs + seq(zeros, _ => 0.0)) == PolySum(t, coeffs)
  {
    if zeros == 0 {
      assert coeffs + seq(zeros, _ => 0.0) == coeffs;
    } else {
      var longer := coeffs + seq(zeros, _ => 0.0);
      assert longer[..|longer| - 1] == coeffs + seq(zeros - 1, _ => 0.0);
      assert longer[|longer| - 1] == 0.0;
      TrailingZerosIgnored(t, coeffs, zeros - 1);
    }
  }
}
