/** Flux to magnitude conversion, scripts/models.py:3-8. */
module Photometry {
  import opened Wrappers
  import opened Transcendental

  /** flux2mag: the magnitude of a flux excess `data` over the reference
      flux `ref`. A zero excess is magnitude zero whatever `ref` is. */
  function FluxToMag(m: Math, data: real, ref: real): (r: real)
    ensures data == 0.0 ==> r == 0.0
  {
    -2.5 * (m.log10(data + ref) - m.log10(ref))
  }

  /** abs() of the source: the magnitude of x, never negative. */
  function Abs(x: real): (r: real)
    ensures r >= 0.0
    ensures r == x || r == -x
  {
    if x < 0.0 then -x else x
  }

  /** A magnitude and its propagated error; the error is None when the
      propagation divides by zero (a non-finite float in the source). */
  datatype MagWithError = MagWithError(mag: real, err: Option<real>)

  /** flux2mag_e: the source writes the magnitude expression out again
      rather than calling flux2mag; the first ensures says both agree. The
      error is the absolute value of -2.5*err/((data+ref)*ln 10). */
  function FluxToMagE(m: Math, data: real, ref: real, err: real): (r: MagWithError)
    ensures r.mag == FluxToMag(m, data, ref)
    ensures r.err.None? <==> (data + ref) * m.ln10 == 0.0
    ensures r.err.Some? ==> r.err.value >= 0.0
    ensures r.err.Some? ==> (r.err.value == 0.0 <==> err == 0.0)
  {
    var mag := -2.5 * (m.log10(data + ref) - m.log10(ref));
    var denominator := (data + ref) * m.ln10;
    if denominator == 0.0 then MagWithError(mag, None)
    else MagWithError(mag, Some(Abs(-2.5 * err / denominator)))
  }

  /** Magnitudes run backwards: with an increasing logarithm and a positive
      reference, a brighter flux has a smaller magnitude, and a positive
      flux excess has a negative magnitude. */
  lemma FluxToMagDecreasing(m: Math, d1: real, d2: real, ref: real)
    requires Log10Increasing(m)
    requires ref > 0.0 && d1 + ref > 0.0 && d1 < d2
    ensures FluxToMag(m, d1, ref) > FluxToMag(m, d2, ref)
    ensures d1 == 0.0 ==> FluxToMag(m, d2, ref) < 0.0
  {
    assert m.log10(d1 + ref) < m.log10(d2 + ref);
  }
}
