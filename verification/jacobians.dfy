/** The analytic Jacobians of the single sinusoid and of the
    sum-of-sinusoids model, scripts/models.py:16-31 and 44-63.

    A matrix is a sequence of rows, one row per sample time. A flag trims
    the leading columns of parameters the caller holds fixed: "fixed_fa"
    keeps only the phase block, "fixed_f" the amplitude and phase blocks,
    and anything else (including no flag) keeps every column. */
module Jacobians {
  import opened Wrappers
  import opened Transcendental
  import opened Sinusoids

  type Flag = Option<string>

  /** The partial derivatives of amp*sin(2*pi*(freq*t + phase)) with respect
      to freq, amp and phase, as the source writes them. */
  function FreqPartial(m: Math, t: real, c: Component): real
  {
    2.0 * m.pi * c.amp * t * m.cos(Angle(m, t, c.freq, c.phase))
  }

  function AmpPartial(m: Math, t: real, c: Component): real
  {
    m.sin(Angle(m, t, c.freq, c.phase))
  }

  function PhasePartial(m: Math, t: real, c: Component): real
  {
    2.0 * m.pi * c.amp * m.cos(Angle(m, t, c.freq, c.phase))
  }

  /** The index of the first column a flag keeps, given the block width n. */
  function FirstKept(flag: Flag, n: nat): nat
  {
    if flag == Some("fixed_fa") then 2 * n
    else if flag == Some("fixed_f") then n
    else 0
  }

  // ---------------------------------------------------------------------
  // sin_jacobian

  /** Column c (0: frequency, 1: amplitude, 2: phase) of the single-sinusoid
      Jacobian at time t. */
  function SinJacobianEntry(m: Math, t: real, c: Component, col: nat): real
    requires col < 3
  {
    if col == 0 then FreqPartial(m, t, c)
    else if col == 1 then AmpPartial(m, t, c)
    else PhasePartial(m, t, c)
  }

  /** sin_jacobian: a len(x) x 3 matrix, trimmed by the flag to width 1
      ("fixed_fa"), 2 ("fixed_f") or 3, keeping the trailing columns in
      order. */
  function SinJacobian(m: Math, x: seq<real>, cf: real, ca: real, cp: real, flag: Flag): (jac: seq<seq<real>>)
    ensures |jac| == |x|
    ensures forall r :: 0 <= r < |x| ==> |jac[r]| == 3 - FirstKept(flag, 1)
    ensures flag == Some("fixed_fa") ==> forall r :: 0 <= r < |x| ==> |jac[r]| == 1
    ensures flag == Some("fixed_f") ==> forall r :: 0 <= r < |x| ==> |jac[r]| == 2
    ensures flag != Some("fixed_fa") && flag != Some("fixed_f") ==> forall r :: 0 <= r < |x| ==> |jac[r]| == 3
    ensures forall r, col :: 0 <= r < |x| && 0 <= col < |jac[r]| ==>
      jac[r][col] == SinJacobianEntry(m, x[r], Component(cf, ca, cp), col + FirstKept(flag, 1))
  {
    var c := Component(cf, ca, cp);
    var full := seq(|x|, r requires 0 <= r < |x| =>
      [FreqPartial(m, x[r], c), AmpPartial(m, x[r], c), PhasePartial(m, x[r], c)]);
    if flag == Some("fixed_fa") then seq(|x|, r requires 0 <= r < |x| => full[r][2..])
    else if flag == Some("fixed_f") then seq(|x|, r requires 0 <= r < |x| => full[r][1..])
    else full
  }

  // ---------------------------------------------------------------------
  // n_sin_jacobian

  /** n_f = int((len(params) - 1) / 3). Python's int() truncates toward
      zero, so an empty vector gives 0, not -1. */
  function BlockWidth(params: seq<real>): (n: nat)
    ensures 3 * n <= |params|
    ensures |params| >= 1 ==> 3 * n <= |params| - 1
  {
    if |params| == 0 then 0 else (|params| - 1) / 3
  }

  /** The component a column belongs to, or n when it is outside the three
      blocks (the zero-point column and any stray trailing ones). */
  function Owner(col: nat, n: nat): (k: nat)
    ensures k <= n
    ensures k < n ==> col == k || col == n + k || col == 2 * n + k
  {
    if col < n then col
    else if col < 2 * n then col - n
    else if col < 3 * n then col - 2 * n
    else n
  }

  /** Component k as n_sin_jacobian reads it (stride n_f). */
  function JacobianComponent(params: seq<real>, k: nat): Component
    requires k < BlockWidth(params)
  {
    var n := BlockWidth(params);
    Component(params[k], params[n + k], params[2 * n + k])
  }

  /** Entry (t, col) of the full len(x) x len(params) Jacobian. */
  function JacobianEntry(m: Math, t: real, params: seq<real>, col: nat): real
    requires col < |params|
  {
    var n := BlockWidth(params);
    var k := Owner(col, n);
    if k == n then 0.0
    else if col < n then FreqPartial(m, t, JacobianComponent(params, k))
    else if col < 2 * n then AmpPartial(m, t, JacobianComponent(params, k))
    else PhasePartial(m, t, JacobianComponent(params, k))
  }

  /** The full matrix after the loop has filled the columns of components
      0..done-1; every other entry is still zero. */
  ghost predicate FilledUpTo(m: Math, x: seq<real>, params: seq<real>, jac: array2<real>, done: nat)
    reads jac
    requires jac.Length0 == |x| && jac.Length1 == |params|
  {
    forall r, col :: 0 <= r < |x| && 0 <= col < |params| ==>
      jac[r, col] == (if Owner(col, BlockWidth(params)) < done then JacobianEntry(m, x[r], params, col) else 0.0)
  }

  /** One pass of the loop body: the three columns of component k. */
  method FillComponent(m: Math, x: seq<real>, params: seq<real>, full: array2<real>, k: nat)
    requires full.Length0 == |x| && full.Length1 == |params|
    requires k < BlockWidth(params)
    requires FilledUpTo(m, x, params, full, k)
    modifies full
    ensures FilledUpTo(m, x, params, full, k + 1)
  {
    var n := BlockWidth(params);
    var c := JacobianComponent(params, k);
    forall r | 0 <= r < |x| {
      full[r, k] := FreqPartial(m, x[r], c);
    }
    forall r | 0 <= r < |x| {
      full[r, n + k] := AmpPartial(m, x[r], c);
    }
    forall r | 0 <= r < |x| {
      full[r, 2 * n + k] := PhasePartial(m, x[r], c);
    }
    forall r, col | 0 <= r < |x| && 0 <= col < |params|
      ensures full[r, col] == (if Owner(col, n) < k + 1 then JacobianEntry(m, x[r], params, col) else 0.0)
    {
      if col != k && col != n + k && col != 2 * n + k {
        assert full[r, col] == old(full[r, col]);
      }
    }
  }

  /** n_sin_jacobian: the columns of each component are written into a
      zeroed len(x) x len(params) matrix, and the flag then keeps the
      columns from 2*n_f ("fixed_fa"), from n_f ("fixed_f") or from 0. */
  method NSinJacobian(m: Math, x: seq<real>, params: seq<real>, flag: Flag) returns (jac: seq<seq<real>>)
    ensures |jac| == |x|
    ensures forall r :: 0 <= r < |x| ==> |jac[r]| == |params| - FirstKept(flag, BlockWidth(params))
    ensures |params| % 3 == 1 ==> forall r :: 0 <= r < |x| ==>
      |jac[r]| == (if flag == Some("fixed_fa") then |params| / 3 + 1
                   else if flag == Some("fixed_f") then 2 * (|params| / 3) + 1
                   else |params|)
    ensures forall r, col :: 0 <= r < |x| && 0 <= col < |jac[r]| ==>
      jac[r][col] == JacobianEntry(m, x[r], params, col + FirstKept(flag, BlockWidth(params)))
  {
    var full := new real[|x|, |params|]((r, col) => 0.0);
    var nf := BlockWidth(params);
    var k := 0;
    while k < nf
      invariant 0 <= k <= nf
      invariant FilledUpTo(m, x, params, full, k)
    {
      FillComponent(m, x, params, full, k);
      k := k + 1;
    }
    jac := KeptColumns(m, x, params, full, FirstKept(flag, nf));
    KeptWidth(params, flag);
  }

  /** The rows of the filled matrix without their first `first` columns. */
  method KeptColumns(m: Math, x: seq<real>, params: seq<real>, full: array2<real>, first: nat) returns (jac: seq<seq<real>>)
    requires full.Length0 == |x| && full.Length1 == |params| && first <= |params|
    requires FilledUpTo(m, x, params, full, BlockWidth(params))
    ensures |jac| == |x|
    ensures forall r :: 0 <= r < |x| ==> |jac[r]| == |params| - first
    ensures forall r, col :: 0 <= r < |x| && 0 <= col < |params| - first ==>
      jac[r][col] == JacobianEntry(m, x[r], params, col + first)
  {
    jac := seq(|x|, r requires 0 <= r < |x| reads full =>
      seq(|params| - first, col requires 0 <= col < |params| - first reads full => full[r, col + first]));
  }

  /** On a vector of length 3n+1 the flag keeps n+1, 2n+1 or all columns. */
  lemma KeptWidth(params: seq<real>, flag: Flag)
    ensures |params| % 3 == 1 ==>
      |params| - FirstKept(flag, BlockWidth(params)) ==
        (if flag == Some("fixed_fa") then |params| / 3 + 1
         else if flag == Some("fixed_f") then 2 * (|params| / 3) + 1
         else |params|)
  {
    if |params| % 3 == 1 {
      var n := |params| / 3;
      assert |params| == 3 * n + 1;
      assert BlockWidth(params) == n;
    }
  }

  // ---------------------------------------------------------------------
  // What the Jacobian means

  /** On a well-formed vector [f.., a.., p.., zp] with n components, column
      k holds the frequency derivative of component k, column n+k its
      amplitude derivative, column 2n+k its phase derivative, and the last
      (zero-point) column is zero. */
  lemma JacobianOfComponentSet(m: Math, t: real, params: seq<real>, k: nat)
    requires |params| % 3 == 1 && k < |params| / 3
    ensures var n := |params| / 3; var c := Unpack(params).0[k];
      && BlockWidth(params) == n
      && JacobianEntry(m, t, params, k) == FreqPartial(m, t, c)
      && JacobianEntry(m, t, params, n + k) == AmpPartial(m, t, c)
      && JacobianEntry(m, t, params, 2 * n + k) == PhasePartial(m, t, c)
      && JacobianEntry(m, t, params, 3 * n) == 0.0
  {
    var n := |params| / 3;
    assert Owner(k, n) == k && Owner(n + k, n) == k && Owner(2 * n + k, n) == k;
  }

  /** The zero-point column is never written, whatever the vector's length:
      the derivative of the model with respect to the zero point is left 0. */
  lemma ZeroPointColumnIsZero(m: Math, t: real, params: seq<real>)
    requires |params| >= 1
    ensures JacobianEntry(m, t, params, |params| - 1) == 0.0
  {
    var n := BlockWidth(params);
    assert |params| - 1 >= 3 * n;
    assert Owner(|params| - 1, n) == n;
  }

  /** The three columns of a component are tied together as the derivatives
      of a*sin(2*pi*(f*t + p)) are: the frequency column is t times the
      phase column, and the amplitude column times the amplitude is that
      component's own term of the model. */
  lemma JacobianColumnsRelated(m: Math, t: real, params: seq<real>, k: nat)
    requires k < BlockWidth(params)
    ensures var n := BlockWidth(params);
      && JacobianEntry(m, t, params, k) == t * JacobianEntry(m, t, params, 2 * n + k)
      && params[n + k] * JacobianEntry(m, t, params, n + k) == ComponentValue(m, t, JacobianComponent(params, k))
  {
    var n := BlockWidth(params);
    assert Owner(k, n) == k && Owner(n + k, n) == k && Owner(2 * n + k, n) == k;
  }

  /** n_sin_model and n_sin_jacobian read the vector with the same stride
      exactly when its length is not a multiple of 3; they always visit the
      same number of components. */
  lemma ModelAndJacobianLayoutsAgree(params: seq<real>, k: nat)
    requires |params| >= 1
    ensures LoopCount(params) == BlockWidth(params)
    ensures Stride(params) == BlockWidth(params) <==> |params| % 3 != 0
    ensures |params| % 3 != 0 && k < BlockWidth(params) ==> ComponentAt(params, k) == JacobianComponent(params, k)
  {
    LoopCountOfLength(|params|);
  }

  /** sin_jacobian is n_sin_jacobian for one component: on [f, a, p, zp]
      the first three columns agree and the fourth is zero. */
  lemma SinJacobianIsOneComponent(m: Math, t: real, f: real, a: real, p: real, zp: real, col: nat)
    requires col < 4
    ensures col < 3 ==> SinJacobianEntry(m, t, Component(f, a, p), col) == JacobianEntry(m, t, [f, a, p, zp], col)
    ensures col == 3 ==> JacobianEntry(m, t, [f, a, p, zp], col) == 0.0
  {
    var params := [f, a, p, zp];
    assert BlockWidth(params) == 1;
    assert JacobianComponent(params, 0) == Component(f, a, p);
  }
}
