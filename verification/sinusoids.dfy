/** The single sinusoid and the sum-of-sinusoids model over a flat parameter
    vector, scripts/models.py:13-14 and 34-42.

    The flat vector is laid out as [f_1..f_n, a_1..a_n, p_1..p_n, zp]. The
    source loops over (len(params)-1)//3 components and finds component i at
    i, i+len(params)//3 and i+2*(len(params)//3); the last entry is the zero
    point. `ComponentSet` is the same data as a sequence of triples plus the
    zero point, and the lemmas below show the two agree. */
module Sinusoids {
  import opened Transcendental

  datatype Component = Component(freq: real, amp: real, phase: real)

  /** sin_model at one time t: amp*sin(2*pi*(freq*t + phase)). A silent
      sinusoid is zero at every time. */
  function SinModel(m: Math, t: real, freq: real, amp: real, phase: real): (r: real)
    ensures amp == 0.0 ==> r == 0.0
  {
    amp * m.sin(Angle(m, t, freq, phase))
  }

  function ComponentValue(m: Math, t: real, c: Component): real
  {
    SinModel(m, t, c.freq, c.amp, c.phase)
  }

  // ---------------------------------------------------------------------
  // The flat layout as the source reads it

  /** The number of loop iterations, l // 3 with l = len(params) - 1. */
  function LoopCount(params: seq<real>): nat
    requires |params| >= 1
  {
    (|params| - 1) / 3
  }

  /** The block width nfreqs = len(params) // 3. */
  function Stride(params: seq<real>): nat
  {
    |params| / 3
  }

  /** (len-1)//3 is len//3 less one when 3 divides len, and len//3
      otherwise. */
  lemma LoopCountOfLength(len: nat)
    requires len >= 1
    ensures (len - 1) / 3 == (if len % 3 == 0 then len / 3 - 1 else len / 3)
  {
    var q, r := len / 3, len % 3;
    assert len == 3 * q + r;
    if r == 0 {
      assert len - 1 == 3 * (q - 1) + 2;
    } else {
      assert len - 1 == 3 * q + (r - 1);
    }
  }

  /** Every index the loop reads lies inside the vector, whatever its length. */
  lemma LayoutInBounds(params: seq<real>, i: nat)
    requires |params| >= 1 && i < LoopCount(params)
    ensures i + 2 * Stride(params) < |params|
  {
    LoopCountOfLength(|params|);
  }

  /** Component i as the source reads it out of the vector. */
  function ComponentAt(params: seq<real>, i: nat): (c: Component)
    requires |params| >= 1 && i < LoopCount(params)
  {
    LayoutInBounds(params, i);
    var s := Stride(params);
    Component(params[i], params[i + s], params[i + 2 * s])
  }

  /** The sum of the first k components at time t, in loop order. */
  function PartialSum(m: Math, t: real, params: seq<real>, k: nat): real
    requires |params| >= 1 && k <= LoopCount(params)
  {
    if k == 0 then 0.0
    else PartialSum(m, t, params, k - 1) + ComponentValue(m, t, ComponentAt(params, k - 1))
  }

  /** The value n_sin_model gives at one time t: all components the loop
      visits plus the last entry of the vector. */
  function NSinAt(m: Math, t: real, params: seq<real>): real
    requires |params| >= 1
  {
    PartialSum(m, t, params, LoopCount(params)) + params[|params| - 1]
  }

  /** n_sin_model: y starts at zero, each component is added to every
      sample in turn, and the zero point is added at the end. */
  method NSinModel(m: Math, x: seq<real>, params: seq<real>) returns (y: seq<real>)
    requires |params| >= 1
    ensures |y| == |x|
    ensures forall j :: 0 <= j < |x| ==> y[j] == NSinAt(m, x[j], params)
    ensures |params| % 3 == 1 ==> forall j :: 0 <= j < |x| ==>
      y[j] == ComponentSetModel(m, x[j], Unpack(params).0, Unpack(params).1)
    ensures |params| == 1 ==> forall j :: 0 <= j < |x| ==> y[j] == params[0]
  {
    var acc := SumOfComponents(m, x, params);
    y := AddZeroPoint(m, x, params, acc);
    SamplesOfFlatModel(m, x, params, y);
  }

  /** The loop of n_sin_model: a zeroed array to which every component the
      loop visits is added in turn. */
  method SumOfComponents(m: Math, x: seq<real>, params: seq<real>) returns (acc: array<real>)
    requires |params| >= 1
    ensures fresh(acc) && acc.Length == |x|
    ensures forall j :: 0 <= j < |x| ==> acc[j] == PartialSum(m, x[j], params, LoopCount(params))
  {
    acc := new real[|x|](_ => 0.0);
    var n := LoopCount(params);
    var i := 0;
    while i < n
      invariant 0 <= i <= n
      invariant forall j :: 0 <= j < |x| ==> acc[j] == PartialSum(m, x[j], params, i)
    {
      // component i: params[i], params[i + nfreqs], params[i + 2*nfreqs]
      var c := ComponentAt(params, i);
      ghost var before := acc[..];
      AddComponent(m, x, acc, c);
      forall j | 0 <= j < |x|
        ensures acc[j] == PartialSum(m, x[j], params, i + 1)
      {
        assert acc[j] == before[j] + ComponentValue(m, x[j], c);
      }
      i := i + 1;
    }
  }

  /** y += sin_model(x, f, a, p): one component added to every sample. */
  method AddComponent(m: Math, x: seq<real>, acc: array<real>, c: Component)
    requires acc.Length == |x|
    modifies acc
    ensures forall j :: 0 <= j < |x| ==> acc[j] == old(acc[j]) + ComponentValue(m, x[j], c)
  {
    forall j | 0 <= j < |x| {
      acc[j] := acc[j] + SinModel(m, x[j], c.freq, c.amp, c.phase);
    }
  }

  /** y + params[-1]: the zero point added to every sample after the loop. */
  method AddZeroPoint(m: Math, x: seq<real>, params: seq<real>, acc: array<real>) returns (y: seq<real>)
    requires |params| >= 1 && acc.Length == |x|
    requires forall j :: 0 <= j < |x| ==> acc[j] == PartialSum(m, x[j], params, LoopCount(params))
    ensures |y| == |x|
    ensures forall j :: 0 <= j < |x| ==> y[j] == NSinAt(m, x[j], params)
  {
    y := seq(|x|, j requires 0 <= j < |x| reads acc => acc[j] + params[|params| - 1]);
  }

  /** What the samples of n_sin_model are, read through the component set. */
  lemma SamplesOfFlatModel(m: Math, x: seq<real>, params: seq<real>, y: seq<real>)
    requires |params| >= 1 && |y| == |x|
    requires forall j :: 0 <= j < |x| ==> y[j] == NSinAt(m, x[j], params)
    ensures |params| % 3 == 1 ==> forall j :: 0 <= j < |x| ==>
      y[j] == ComponentSetModel(m, x[j], Unpack(params).0, Unpack(params).1)
    ensures |params| == 1 ==> forall j :: 0 <= j < |x| ==> y[j] == params[0]
  {
    if |params| % 3 == 1 {
      forall j | 0 <= j < |x|
        ensures y[j] == ComponentSetModel(m, x[j], Unpack(params).0, Unpack(params).1)
      {
        NSinIsComponentSetModel(m, x[j], params);
      }
    }
  }

  // ---------------------------------------------------------------------
  // The same data as a component set

  /** The sum of a sequence of components, in order. */
  function SumComponents(m: Math, t: real, cs: seq<Component>): real
  {
    if cs == [] then 0.0
    else SumComponents(m, t, cs[..|cs| - 1]) + ComponentValue(m, t, cs[|cs| - 1])
  }

  /** The multi-sinusoid model over a component set and a zero point. */
  function ComponentSetModel(m: Math, t: real, cs: seq<Component>, zp: real): real
  {
    SumComponents(m, t, cs) + zp
  }

  function Freqs(cs: seq<Component>): (r: seq<real>)
    ensures |r| == |cs| && forall i :: 0 <= i < |cs| ==> r[i] == cs[i].freq
  {
    seq(|cs|, i requires 0 <= i < |cs| => cs[i].freq)
  }

  function Amps(cs: seq<Component>): (r: seq<real>)
    ensures |r| == |cs| && forall i :: 0 <= i < |cs| ==> r[i] == cs[i].amp
  {
    seq(|cs|, i requires 0 <= i < |cs| => cs[i].amp)
  }

  function Phases(cs: seq<Component>): (r: seq<real>)
    ensures |r| == |cs| && forall i :: 0 <= i < |cs| ==> r[i] == cs[i].phase
  {
    seq(|cs|, i requires 0 <= i < |cs| => cs[i].phase)
  }

  /** The flat vector the source expects: freqs, amps, phases, zero point. */
  function Pack(cs: seq<Component>, zp: real): (params: seq<real>)
    ensures |params| == 3 * |cs| + 1
    ensures params[|params| - 1] == zp
    ensures forall i :: 0 <= i < |cs| ==>
      params[i] == cs[i].freq && params[|cs| + i] == cs[i].amp && params[2 * |cs| + i] == cs[i].phase
  {
    Freqs(cs) + Amps(cs) + Phases(cs) + [zp]
  }

  /** A vector of length 3n+1 read as n components and a zero point. */
  function Unpack(params: seq<real>): (r: (seq<Component>, real))
    requires |params| % 3 == 1
    ensures 3 * |r.0| + 1 == |params|
    ensures r.1 == params[|params| - 1]
    ensures forall i :: 0 <= i < |r.0| ==>
      r.0[i] == Component(params[i], params[|r.0| + i], params[2 * |r.0| + i])
  {
    var n := |params| / 3;
    (seq(n, i requires 0 <= i < n => Component(params[i], params[n + i], params[2 * n + i])),
     params[|params| - 1])
  }

  lemma UnpackPack(cs: seq<Component>, zp: real)
    ensures Unpack(Pack(cs, zp)) == (cs, zp)
  {
    var r := Unpack(Pack(cs, zp));
    assert |r.0| == |cs|;
    assert r.0 == cs;
  }

  lemma PackUnpack(params: seq<real>)
    requires |params| % 3 == 1
    ensures Pack(Unpack(params).0, Unpack(params).1) == params
  {
    var (cs, zp) := Unpack(params);
    var p := Pack(cs, zp);
    var n := |cs|;
    forall k | 0 <= k < |params|
      ensures p[k] == params[k]
    {
      if k < n {
      } else if k < 2 * n {
        assert p[n + (k - n)] == cs[k - n].amp;
      } else if k < 3 * n {
        assert p[2 * n + (k - 2 * n)] == cs[k - 2 * n].phase;
      }
    }
  }

  /** With a vector of length 3n+1 the loop visits exactly n components and
      component i is (params[i], params[n+i], params[2n+i]). */
  lemma FlatLayout(params: seq<real>, n: nat)
    requires |params| == 3 * n + 1
    ensures LoopCount(params) == Stride(params) == n
    ensures forall i :: 0 <= i < n ==> ComponentAt(params, i) == Component(params[i], params[n + i], params[2 * n + i])
  {
  }

  /** The loop's partial sums are prefix sums of any component sequence
      that agrees with the components the loop reads. */
  lemma {:induction false} PartialSumIsPrefixSum(m: Math, t: real, params: seq<real>, cs: seq<Component>, k: nat)
    requires |params| >= 1 && k <= LoopCount(params) && k <= |cs|
    requires forall i :: 0 <= i < k ==> ComponentAt(params, i) == cs[i]
    ensures PartialSum(m, t, params, k) == SumComponents(m, t, cs[..k])
  {
    if k == 0 {
      assert cs[..k] == [];
    } else {
      PartialSumIsPrefixSum(m, t, params, cs, k - 1);
      assert cs[..k][..k - 1] == cs[..k - 1];
    }
  }

  /** The loop reads, in order, exactly the components a vector of length
      3n+1 holds. */
  lemma LoopReadsComponents(params: seq<real>, cs: seq<Component>)
    requires |params| == 3 * |cs| + 1
    requires forall i :: 0 <= i < |cs| ==>
      cs[i] == Component(params[i], params[|cs| + i], params[2 * |cs| + i])
    ensures LoopCount(params) == |cs|
    ensures forall i :: 0 <= i < |cs| ==> ComponentAt(params, i) == cs[i]
  {
    FlatLayout(params, |cs|);
  }

  /** When the loop reads exactly the components cs, n_sin_model is their
      sum plus the last entry. */
  lemma NSinOfComponents(m: Math, t: real, params: seq<real>, cs: seq<Component>)
    requires |params| >= 1 && LoopCount(params) == |cs|
    requires forall i :: 0 <= i < |cs| ==> ComponentAt(params, i) == cs[i]
    ensures NSinAt(m, t, params) == SumComponents(m, t, cs) + params[|params| - 1]
  {
    PartialSumIsPrefixSum(m, t, params, cs, |cs|);
    assert cs[..|cs|] == cs;
  }

  /** n_sin_model on a well-formed vector is the component-set model of the
      components and zero point the vector holds. */
  lemma NSinIsComponentSetModel(m: Math, t: real, params: seq<real>)
    requires |params| % 3 == 1
    ensures NSinAt(m, t, params) == ComponentSetModel(m, t, Unpack(params).0, Unpack(params).1)
  {
    var cs := Unpack(params).0;
    LoopReadsComponents(params, cs);
    NSinOfComponents(m, t, params, cs);
  }

  /** The packed form of a component set evaluates to that set's model. */
  lemma NSinOfPacked(m: Math, t: real, cs: seq<Component>, zp: real)
    ensures NSinAt(m, t, Pack(cs, zp)) == ComponentSetModel(m, t, cs, zp)
  {
    UnpackPack(cs, zp);
    NSinIsComponentSetModel(m, t, Pack(cs, zp));
  }

  /** One component: n_sin_model is sin_model plus the zero point. */
  lemma NSinSingle(m: Math, t: real, f: real, a: real, p: real, zp: real)
    ensures NSinAt(m, t, [f, a, p, zp]) == SinModel(m, t, f, a, p) + zp
  {
    var params := [f, a, p, zp];
    assert LoopCount(params) == 1;
    assert ComponentAt(params, 0) == Component(f, a, p);
    assert PartialSum(m, t, params, 1) == PartialSum(m, t, params, 0) + SinModel(m, t, f, a, p);
  }

  lemma {:induction false} SumComponentsAppend(m: Math, t: real, a: seq<Component>, b: seq<Component>)
    ensures SumComponents(m, t, a + b) == SumComponents(m, t, a) + SumComponents(m, t, b)
  {
    if b == [] {
      assert a + b == a;
    } else {
      var b' := b[..|b| - 1];
      assert (a + b)[..|a + b| - 1] == a + b';
      SumComponentsAppend(m, t, a, b');
    }
  }

  /** A component whose amplitude is zero contributes nothing: removing it
      leaves the model unchanged at every time. */
  lemma ZeroAmplitudeContributesNothing(m: Math, t: real, cs: seq<Component>, zp: real, i: nat)
    requires i < |cs| && cs[i].amp == 0.0
    ensures ComponentSetModel(m, t, cs[..i] + cs[i + 1..], zp) == ComponentSetModel(m, t, cs, zp)
  {
    assert cs == cs[..i] + [cs[i]] + cs[i + 1..];
    SumComponentsAppend(m, t, cs[..i] + [cs[i]], cs[i + 1..]);
    SumComponentsAppend(m, t, cs[..i], [cs[i]]);
    SumComponentsAppend(m, t, cs[..i], cs[i + 1..]);
    assert [cs[i]][..0] == [];
  }

  /** With only a zero point, or only silent components, the model is the
      constant zero point. */
  lemma {:induction false} SilentModelIsConstant(m: Math, t: real, cs: seq<Component>, zp: real)
    requires forall i :: 0 <= i < |cs| ==> cs[i].amp == 0.0
    ensures ComponentSetModel(m, t, cs, zp) == zp
  {
    if cs != [] {
      SilentModelIsConstant(m, t, cs[..|cs| - 1], zp);
    }
  }
}
