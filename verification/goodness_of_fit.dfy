/** The fit cost: chi-square and the reduced chi-square of the
    sum-of-sinusoids model, scripts/models.py:10-11 and 77-81.

    A division by zero, which numpy turns into inf or nan, gives None. */
module GoodnessOfFit {
  import opened Wrappers
  import opened Transcendental
  import opened Sinusoids

  /** The squared normalised residual of one sample. */
  function Term(data: real, model: real, err: real): (r: real)
    requires err != 0.0
    ensures r >= 0.0
    ensures r == 0.0 <==> data == model
  {
    var z := (data - model) / err;
    SquareFacts(z);
    QuotientZero(data - model, err);
    z * z
  }

  /** A square is never negative, and it is zero only for zero. */
  lemma SquareFacts(z: real)
    ensures z * z >= 0.0
    ensures z != 0.0 ==> z * z > 0.0
    ensures z == 0.0 ==> z * z == 0.0
  {
    if z > 0.0 {
      PositiveProduct(z, z);
    } else if z < 0.0 {
      PositiveProduct(-z, -z);
      NegatedSquare(z);
    }
  }

  lemma PositiveProduct(a: real, b: real)
    requires a > 0.0 && b > 0.0
    ensures a * b > 0.0
  {
  }

  lemma NegatedSquare(z: real)
    ensures (-z) * (-z) == z * z
  {
  }

  lemma QuotientZero(d: real, e: real)
    requires e != 0.0
    ensures d / e == 0.0 <==> d == 0.0
  {
    assert (d / e) * e == d;
  }

  /** chisq: the sum of ((data - model)/err)^2 over all samples. It is
      finite exactly when no error is zero; then it is never negative and
      it is zero exactly when the model reproduces the data. */
  function ChiSq(data: seq<real>, model: seq<real>, err: seq<real>): (r: Option<real>)
    requires |data| == |model| == |err|
    ensures r.Some? <==> forall i :: 0 <= i < |err| ==> err[i] != 0.0
    ensures r.Some? ==> r.value >= 0.0
    ensures r.Some? ==> (r.value == 0.0 <==> data == model)
  {
    if data == [] then Some(0.0)
    else
      var n := |data| - 1;
      var rest := ChiSq(data[..n], model[..n], err[..n]);
      if rest.None? || err[n] == 0.0 then
        assert err[n] != 0.0 ==> exists i :: 0 <= i < n && err[..n][i] == 0.0;
        None
      else
        assert data == model <==> data[..n] == model[..n] && data[n] == model[n] by {
          assert data == data[..n] + [data[n]] && model == model[..n] + [model[n]];
        }
        Some(rest.value + Term(data[n], model[n], err[n]))
  }

  /** The samples of n_sin_model at the times x. */
  function ModelSamples(m: Math, x: seq<real>, params: seq<real>): (y: seq<real>)
    requires |params| >= 1
    ensures |y| == |x| && forall j :: 0 <= j < |x| ==> y[j] == NSinAt(m, x[j], params)
  {
    seq(|x|, j requires 0 <= j < |x| => NSinAt(m, x[j], params))
  }

  /** The degrees of freedom len(x) - len(params); may be zero or negative. */
  function Dof(x: seq<real>, params: seq<real>): int
  {
    |x| - |params|
  }

  /** A chi-square divided by the degrees of freedom. Dividing by zero
      gives None; a negative dof is divided by like any other. */
  function Reduce(chi: Option<real>, dof: int): (r: Option<real>)
    requires chi.Some? ==> chi.value >= 0.0
    ensures r.Some? <==> chi.Some? && dof != 0
    ensures r.Some? ==> r.value * dof as real == chi.value
    ensures r.Some? ==> r.value == chi.value / dof as real
    ensures r.Some? && dof > 0 ==> r.value >= 0.0
    ensures r.Some? && dof < 0 ==> r.value <= 0.0
  {
    if chi.None? || dof == 0 then None
    else Some(chi.value / dof as real)
  }

  /** n_sin_min: the chi-square of n_sin_model's samples divided by
      dof = len(x) - len(params). The source does not check dof: zero gives
      a non-finite value (None), and a negative dof, more parameters than
      samples, gives a cost of the opposite sign. */
  function NSinMin(m: Math, x: seq<real>, y: seq<real>, err: seq<real>, params: seq<real>): (r: Option<real>)
    requires |params| >= 1 && |x| == |y| == |err|
    ensures r.Some? <==> |x| != |params| && forall i :: 0 <= i < |err| ==> err[i] != 0.0
    ensures r.Some? ==> r.value == ChiSq(y, ModelSamples(m, x, params), err).value / (|x| - |params|) as real
    ensures r.Some? && |x| > |params| ==> r.value >= 0.0
    ensures r.Some? && |x| < |params| ==> r.value <= 0.0
  {
    Reduce(ChiSq(y, ModelSamples(m, x, params), err), Dof(x, params))
  }

  /** When the data are exactly the model's samples (and every error is
      nonzero), the reduced chi-square is zero. */
  lemma PerfectFitHasZeroCost(m: Math, x: seq<real>, y: seq<real>, err: seq<real>, params: seq<real>)
    requires |params| >= 1 && |x| == |y| == |err| && |x| != |params|
    requires forall i :: 0 <= i < |err| ==> err[i] != 0.0
    requires forall j :: 0 <= j < |x| ==> y[j] == NSinAt(m, x[j], params)
    ensures NSinMin(m, x, y, err, params) == Some(0.0)
  {
    assert y == ModelSamples(m, x, params);
  }
}
