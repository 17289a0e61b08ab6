# A verified model of the pypw model functions

pypw extracts sinusoidal signals from astronomical light curves by
prewhitening: it fits sums of sinusoids to a time series and subtracts them
one frequency at a time. This project models the numeric helper layer that the
fitter and the reporting code are built on, and proves properties of it in
Dafny:

- the flux-to-magnitude conversions `flux2mag` and `flux2mag_e`
  (`Photometry`, photometry.dfy);
- the single sinusoid `sin_model` and the sum-of-sinusoids model `n_sin_model`
  over the flat parameter vector `[f_1..f_n, a_1..a_n, p_1..p_n, zp]`
  (`Sinusoids`, sinusoids.dfy), with a component-set view of the same data
  (a sequence of (frequency, amplitude, phase) triples plus a zero point) and
  proofs that the two agree;
- the analytic Jacobians `sin_jacobian` and `n_sin_jacobian`, including the
  flag that drops the leading frequency or frequency-and-amplitude columns
  (`Jacobians`, jacobians.dfy);
- the polynomial model `n_model_poly` (`Polynomial`, polynomial.dfy);
- the cost functions `chisq` and `n_sin_min` (`GoodnessOfFit`,
  goodness_of_fit.dfy);
- `OutputHandler.get_freq_params_in_mmag`, which turns a fitted amplitude and
  phase into millimagnitudes and a re-centred phase (`OutputHandler`,
  output_handler.dfy).

Numbers are Dafny `real`s. The transcendental functions and constants (`sin`,
`cos`, `log10`, ln 10 and pi) are the fields of a `Math` value
(transcendental.dfy). Every function takes that value as a parameter and
places no constraint on it. So every result fixes how the functions are
combined and holds for any choice of them. The two sign results that need a
property of the logarithm assume only that `log10` is strictly increasing on
the positive reals (`Log10Increasing`).

A division by zero, which numpy turns into `inf` or `nan`, is an explicit
`None` (wrappers.dfy). This covers the error of `flux2mag_e`, `chisq` with a
zero error, and `n_sin_min` with zero degrees of freedom.

The routines that build their result with a loop are methods proved against
specification functions. `n_sin_model` adds each component into a zeroed
array. `n_sin_jacobian` writes each component's three columns into a zeroed
`array2`. `n_model_poly` keeps a running power counter. The routines that
are a single expression are functions.

Two further points about the code:

- `n_sin_min` does not check the degrees of freedom: dof = 0 gives a
  non-finite value, and a negative dof gives a cost of the opposite sign
  (`GoodnessOfFit.NSinMin`).
- The code keeps the parameters in one flat vector. `Sinusoids.Unpack` and
  `Sinusoids.Pack` give an equivalent view as a sequence of components and a
  zero point, and the two views are proved equal
  (`Sinusoids.NSinIsComponentSetModel`, `Sinusoids.UnpackPack`,
  `Sinusoids.PackUnpack`).

Two layout details are modelled as written:

- `n_sin_model` reads component i at `i`, `i + len//3` and `i + 2*(len//3)`
  and loops `(len-1)//3` times.
- `n_sin_jacobian` uses the stride `int((len-1)/3)`. Python's `int`
  truncates toward zero, so an empty vector gives 0.

The two strides agree exactly when the length is not a multiple of 3
(`Jacobians.ModelAndJacobianLayoutsAgree`). A well-formed vector, of length
3n+1, always satisfies this.

## Model

| member | source | states |
|---|---|---|
| `Photometry.FluxToMag` | scripts/models.py:3-4 | a zero flux excess has magnitude 0 for a positive reference flux (for ref <= 0 see "Left out") |
| `Photometry.FluxToMagE` | scripts/models.py:5-8 | the magnitude is the same as flux2mag on the same inputs; the error is non-finite (None) exactly when (data+ref)*ln 10 is zero, otherwise it is >= 0 and is 0 exactly when the input error is 0 |
| `Photometry.FluxToMagDecreasing` | scripts/models.py:3-4 | with an increasing logarithm and a positive reference, a larger flux gives a strictly smaller magnitude, and a positive excess gives a negative magnitude |
| `Sinusoids.SinModel` | scripts/models.py:13-14 | a sinusoid of amplitude 0 is 0 at every time |
| `Sinusoids.LoopCountOfLength` | scripts/models.py:37-40 | (len-1)//3 is len//3 - 1 when 3 divides len and len//3 otherwise |
| `Sinusoids.LayoutInBounds` | scripts/models.py:37-41 | for a vector of any length, every index the loop reads (i, i+len//3, i+2*(len//3)) lies inside the vector |
| `Sinusoids.NSinModel` | scripts/models.py:34-42 | one output per sample time; each is the sum of the loop's components plus the last vector entry; on a 3n+1 vector it is the component-set model of the n triples and the zero point; with only a zero point every output is that zero point |
| `Sinusoids.SumOfComponents` | scripts/models.py:39-41 | after the loop every sample holds the sum of all (len-1)//3 components the loop reads, in loop order |
| `Sinusoids.AddComponent` | scripts/models.py:41 | `y +=` adds the component's sin_model value to every sample and to nothing else |
| `Sinusoids.AddZeroPoint` | scripts/models.py:42 | adding the last entry to every accumulated sample gives n_sin_model's value at that sample time |
| `Sinusoids.NSinOfComponents` | scripts/models.py:37-42 | when the loop reads exactly a given sequence of components, the model is their sum plus the last entry |
| `Sinusoids.LoopReadsComponents` | scripts/models.py:37-41 | on a vector of length 3n+1 the loop runs n times and reads exactly the n triples (params[i], params[n+i], params[2n+i]) |
| `Sinusoids.FlatLayout` | scripts/models.py:37-41 | on a vector of length 3n+1 the loop runs n times with stride n, and component i is (params[i], params[n+i], params[2n+i]) |
| `Sinusoids.UnpackPack` | scripts/models.py:34-36 | packing components and a zero point into freqs, amps, phases, zp and reading them back returns the same components and zero point |
| `Sinusoids.PackUnpack` | scripts/models.py:34-36 | every vector of length 3n+1 is the packed form of the components and zero point read from it |
| `Sinusoids.PartialSumIsPrefixSum` | scripts/models.py:40-41 | after k passes the loop has added exactly the first k components of any sequence that agrees with what it reads |
| `Sinusoids.NSinIsComponentSetModel` | scripts/models.py:34-42 | on a 3n+1 vector, n_sin_model is exactly the sum of the n sinusoids the vector describes plus its zero point |
| `Sinusoids.NSinOfPacked` | scripts/models.py:34-42 | n_sin_model of a packed component set is that set's model |
| `Sinusoids.NSinSingle` | scripts/models.py:13-14 | with one component, n_sin_model is sin_model plus the zero point |
| `Sinusoids.SumComponentsAppend` | scripts/models.py:40-41 | the sum over two concatenated component lists is the sum of the two sums |
| `Sinusoids.ZeroAmplitudeContributesNothing` | scripts/models.py:39-41 | removing a component whose amplitude is 0 leaves the model unchanged at every time |
| `Sinusoids.SilentModelIsConstant` | scripts/models.py:39-42 | when every amplitude is 0 (in particular with no components) the model is the constant zero point |
| `Jacobians.SinJacobian` | scripts/models.py:16-31 | one row per sample; width 1 for "fixed_fa" (phase column), 2 for "fixed_f" (amplitude and phase) and 3 otherwise; kept columns are the full columns, unchanged and in order |
| `Jacobians.SinJacobianIsOneComponent` | scripts/models.py:20-23 | sin_jacobian's three columns are n_sin_jacobian's for the vector [f, a, p, zp], whose fourth column is zero |
| `Jacobians.BlockWidth` | scripts/models.py:48 | n_f = int((len-1)/3) uses at most the first len-1 entries: its three blocks never reach the last (zero-point) entry |
| `Jacobians.FillComponent` | scripts/models.py:49-55 | one loop pass writes component k's three columns and leaves all other columns as they were |
| `Jacobians.NSinJacobian` | scripts/models.py:44-63 | a len(x) x (len(params) - first kept column) matrix whose entries are the full Jacobian's, unchanged and in order; the first kept column is 2n_f for "fixed_fa", n_f for "fixed_f" and 0 otherwise; on a 3n+1 vector the widths are n+1, 2n+1 and 3n+1 |
| `Jacobians.KeptColumns` | scripts/models.py:56-63 | the slice jacobian[:, first:] of the filled matrix has one row per sample and len(params) - first columns, each the full Jacobian's column first + c |
| `Jacobians.KeptWidth` | scripts/models.py:56-63 | on a vector of length 3n+1 the flag keeps n+1 ("fixed_fa"), 2n+1 ("fixed_f") or all 3n+1 columns |
| `Jacobians.JacobianOfComponentSet` | scripts/models.py:47-55 | on a 3n+1 vector, column k holds 2*pi*a*t*cos(...) of component k, column n+k holds sin(...), column 2n+k holds 2*pi*a*cos(...), and the zero-point column is 0 |
| `Jacobians.ZeroPointColumnIsZero` | scripts/models.py:47-55 | the last column is never written and stays 0, for a vector of any length |
| `Jacobians.JacobianColumnsRelated` | scripts/models.py:53-55 | the frequency column is t times the phase column, and the amplitude column times the amplitude is that component's term of n_sin_model |
| `Jacobians.ModelAndJacobianLayoutsAgree` | scripts/models.py:37-52 | n_sin_model and n_sin_jacobian visit the same number of components; they read them with the same stride exactly when the vector length is not a multiple of 3, and then they read the same triples |
| `Polynomial.NModelPoly` | scripts/models.py:65-75 | the result is the sum of params[i] * t^i with the power rising from 0; no coefficients give 0 |
| `Polynomial.PolySumCons` | scripts/models.py:72-74 | putting a constant term in front of a coefficient list gives that constant plus t times the list's value, since every other coefficient moves up one power |
| `Polynomial.PolySumIsHorner` | scripts/models.py:72-74 | the loop's sum equals the polynomial evaluated by Horner's rule |
| `Polynomial.TrailingZerosIgnored` | scripts/models.py:72-74 | appending zero coefficients leaves the value unchanged |
| `GoodnessOfFit.Term` | scripts/models.py:11 | one squared normalised residual ((data-model)/err)^2 is >= 0 and is 0 exactly when data equals model |
| `GoodnessOfFit.ChiSq` | scripts/models.py:10-11 | finite exactly when no error is zero; then it is >= 0 and is 0 exactly when data equals model at every sample |
| `GoodnessOfFit.Reduce` | scripts/models.py:80-81 | dividing by dof: non-finite exactly when chi-square is non-finite or dof is 0; the result times dof is the chi-square; the result is >= 0 for positive dof and <= 0 for negative dof |
| `GoodnessOfFit.NSinMin` | scripts/models.py:77-81 | finite exactly when len(x) != len(params) and no error is zero; then the result is the chi-square of n_sin_model's samples divided by len(x) - len(params), and it is >= 0 when len(x) > len(params) and <= 0 when len(x) < len(params) |
| `GoodnessOfFit.PerfectFitHasZeroCost` | scripts/models.py:77-81 | data that are exactly n_sin_model's samples have reduced chi-square 0 |
| `OutputHandler.ShiftPhase` | output_handler.py:217-221 | the phase becomes p - 0.5 when p >= 0.5 and p + 0.5 otherwise (one +1 correction, not a modulo); the result is in [0, 1) exactly when p is in [-0.5, 1.5), is negative below that range and is >= 1 above it |
| `OutputHandler.ShiftPhaseInvolution` | output_handler.py:217-221 | on phases in [0, 1), shifting twice gives the phase back |
| `OutputHandler.GetFreqParamsInMmag` | output_handler.py:210-224 | the amplitude is -1000 times flux2mag of the amplitude (sign flipped); its error is 1000 times flux2mag_e's error, so it is >= 0 and non-finite exactly when flux2mag_e's is; the phase is the shifted phase, in [0, 1) for a phase in [0, 1); the initial amplitude is 1000 times flux2mag with no flip; the initial phase gets the same shift but is multiplied by 1000 |
| `OutputHandler.AmplitudeFlippedPositive` | output_handler.py:212-215 | with an increasing logarithm, a positive reference flux and a positive flux amplitude, the returned millimagnitude amplitude is positive |

## Left out

- `bowman_noise_model` (scripts/models.py:83-86): the real power `(x/x0)^gamma` has no exact counterpart over Dafny reals.
- The values of sin, cos, log10, ln 10 and pi, and floating-point rounding. They are uninterpreted, and numbers are exact reals.
- Photometry.FluxToMag: for a reference flux <= 0 the source computes nan (`log10(0) - log10(0)`, or the logarithm of a negative number), while the model returns whatever the uninterpreted `log10` gives, which is 0 for a zero excess.
- Non-finite floats other than those from a division by zero. For example, `log10` of a non-positive flux is only whatever the uninterpreted `log10` returns there.
- numpy broadcasting. `n_model_poly` is modelled at one evaluation point, which is its scalar (`TypeError` fallback) path; the array path applies the same sum at each sample. The other models work on a sequence of sample times.
- Arrays of different lengths in `chisq` and `n_sin_min` are excluded by a precondition of equal lengths. This excludes both the mismatches numpy rejects with an error and the ones it broadcasts, such as a scalar or length-1 `err` or `y` (`chisq(data, model, 1.0)`), which the model does not represent.
- An empty parameter vector in `n_sin_model` and `n_sin_min`, where `params[-1]` raises `IndexError`, is excluded by a precondition.
- The `flag` argument is an optional string. A flag of any other type behaves like an unrecognised string, and the model does not represent it separately.
- OutputHandler.GetFreqParamsInMmag: the reference flux is a real number. The handler's default `reference_flux=None` (output_handler.py:12-13) makes the conversion raise `TypeError` at `data + ref` inside `flux2mag`; the model does not represent a missing reference flux or that error.
- Everything else in `OutputHandler`: creating and deleting directories, plotting, and writing files (light curves, periodograms, frequency tables, the typeset table). All of it is file and plot I/O. `format_output` comes from `pw_io`, which is not part of this model.
- `config.py`: module-level settings. None of the modelled routines read it.
- The prewhitening loop, the periodogram, peak selection and the non-linear fitter are not part of this model.
