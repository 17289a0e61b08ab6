/** The one arithmetic routine of the output handler,
    OutputHandler.get_freq_params_in_mmag (output_handler.py:210-224): a
    frequency's amplitude and phase converted for a millimagnitude table.
    The rest of the handler writes files and plots and is not modelled. */
module OutputHandler {
  import opened Wrappers
  import opened Transcendental
  import opened Photometry

  /** The fields of an accepted frequency that the conversion reads: the
      amplitude and its error, the phase, and the initial-guess amplitude
      and phase. */
  datatype Frequency = Frequency(a: real, aErr: real, p: real, a0: real, p0: real)

  /** The five values the conversion returns, in order. */
  datatype MmagParams = MmagParams(amp: real, ampErr: Option<real>, phase: real, amp0: real, phase0: real)

  /** Half a cycle of phase shift with a single wrap: subtract 0.5, and add
      1 back once if that went negative. It is a shift by +-0.5, never a full
      modulo: the result lies in [0, 1) exactly when p lies in [-0.5, 1.5). */
  function ShiftPhase(p: real): (r: real)
    ensures r == (if p >= 0.5 then p - 0.5 else p + 0.5)
    ensures 0.0 <= r < 1.0 <==> -0.5 <= p < 1.5
    ensures p < -0.5 ==> r < 0.0
    ensures p >= 1.5 ==> r >= 1.0
  {
    var shifted := p - 0.5;
    if shifted < 0.0 then shifted + 1.0 else shifted
  }

  /** On phases already in [0, 1) the shift is its own inverse. */
  lemma ShiftPhaseInvolution(p: real)
    requires 0.0 <= p < 1.0
    ensures ShiftPhase(ShiftPhase(p)) == p
  {
  }

  /** get_freq_params_in_mmag with reference flux rflux: the amplitude in
      mmag with its sign flipped, its error in mmag, the shifted phase, the
      initial amplitude in mmag (no sign flip) and the shifted initial phase
      multiplied by 1000 (the source scales it like an amplitude). */
  function GetFreqParamsInMmag(m: Math, freq: Frequency, rflux: real): (r: MmagParams)
    ensures r.amp == -1000.0 * FluxToMagE(m, freq.a, rflux, freq.aErr).mag
    ensures r.amp == -1000.0 * FluxToMag(m, freq.a, rflux)
    ensures r.ampErr.None? <==> (freq.a + rflux) * m.ln10 == 0.0
    ensures r.ampErr.Some? ==> r.ampErr.value >= 0.0
    ensures r.ampErr.Some? ==> r.ampErr.value == 1000.0 * FluxToMagE(m, freq.a, rflux, freq.aErr).err.value
    ensures r.phase == ShiftPhase(freq.p)
    ensures 0.0 <= freq.p < 1.0 ==> 0.0 <= r.phase < 1.0
    ensures r.amp0 == 1000.0 * FluxToMag(m, freq.a0, rflux)
    ensures r.phase0 == 1000.0 * ShiftPhase(freq.p0)
  {
    var conv := FluxToMagE(m, freq.a, rflux, freq.aErr);
    var a0m := FluxToMag(m, freq.a0, rflux);
    // flip so it is positive
    var am := -conv.mag;
    // shift the phases by half a cycle, wrapping once
    var pm := freq.p - 0.5;
    var p0m := freq.p0 - 0.5;
    var pm' := if pm < 0.0 then pm + 1.0 else pm;
    var p0m' := if p0m < 0.0 then p0m + 1.0 else p0m;
    var aErrM := match conv.err case None => None case Some(e) => Some(e * 1000.0);
    MmagParams(am * 1000.0, aErrM, pm', a0m * 1000.0, p0m' * 1000.0)
  }

  /** The sign flip makes a positive flux amplitude a positive millimag
      amplitude (with an increasing logarithm and a positive reference). */
  lemma AmplitudeFlippedPositive(m: Math, freq: Frequency, rflux: real)
    requires Log10Increasing(m)
    requires rflux > 0.0 && freq.a > 0.0
    ensures GetFreqParamsInMmag(m, freq, rflux).amp > 0.0
  {
    FluxToMagDecreasing(m, 0.0, freq.a, rflux);
  }
}
