/** The transcendental functions and constants that the models combine.

    Nothing is claimed about their values: a `Math` value bundles an
    arbitrary `sin`, `cos` and `log10` together with arbitrary constants
    `ln10` (the natural logarithm of 10) and `pi`. Every result in the model
    holds for every such bundle, so it holds in particular for the real ones. */
module Transcendental {

  datatype Math = Math(
    sin: real -> real,
    cos: real -> real,
    log10: real -> real,
    ln10: real,
    pi: real)

  /** The angle 2*pi*(f*t + p) that a sinusoid of frequency f and phase p
      (phase in cycles) has at time t. */
  function Angle(m: Math, t: real, f: real, p: real): real
  {
    2.0 * m.pi * (f * t + p)
  }

  /** The one property of the decimal logarithm some lemmas assume: it is
      strictly increasing on the positive reals. */
  ghost predicate Log10Increasing(m: Math)
  {
    forall u: real, v: real :: 0.0 < u < v ==> m.log10(u) < m.log10(v)
  }
}
