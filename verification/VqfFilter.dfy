/** The low-pass filter of the vendored estimator, firmware/common/fusion/vqf/vqf.cpp: a vector
    filter whose one state array first counts and sums samples and then holds two delays per
    component. The not-a-number markers that tell the phases apart are None. */
module VqfFilter {
  import opened Wire
  import opened Angles

  /** Second-order coefficients, with a0 = 1. */
  datatype Coeffs = Coeffs(b0: real, b1: real, b2: real, a1: real, a2: real)

  datatype Delay = Delay(s0: real, s1: real)

  const PASSTHROUGH := Coeffs(1.0, 0.0, 0.0, 0.0, 0.0)

  /** The bilinear second-order Butterworth low-pass; `c` is the tangent of the cut-off and
      `root2` the library's square root of two. */
  function Butterworth(c: real, root2: real): (k: Coeffs)
    requires c > 0.0 && root2 > 0.0
  {
    var d := c * c + root2 * c + 1.0;
    Coeffs(c * c / d, 2.0 * (c * c / d), c * c / d, 2.0 * (c * c - 1.0) / d, (1.0 - root2 * c + c * c) / d)
  }

  /** The tangent is only taken when the cut-off is below the Nyquist limit. */
  function FilterCoeffs(tau: real, ts: real, tan: real, root2: real): (k: Coeffs)
    requires tau > 0.0 && ts > 0.0 && root2 > 0.0 && (tau >= ts / 2.0 ==> tan > 0.0)
  {
    if tau < ts / 2.0 then PASSTHROUGH else Butterworth(tan, root2)
  }

  /** How long `count` samples take. */
  function Lasted(count: real, ts: real): (t: real) {
    count * ts
  }

  function InitialState(k: Coeffs, x0: real): (d: Delay) {
    Delay(x0 * (1.0 - k.b0), x0 * (k.b2 - k.a2))
  }

  function StepOutput(k: Coeffs, d: Delay, x: real): (y: real) {
    k.b0 * x + d.s0
  }

  function FirstDelay(k: Coeffs, x: real, y: real, s1: real): (s: real) {
    k.b1 * x - k.a1 * y + s1
  }

  function SecondDelay(k: Coeffs, x: real, y: real): (s: real) {
    k.b2 * x - k.a2 * y
  }

  function StepDelay(k: Coeffs, d: Delay, x: real): (next: Delay) {
    var y := StepOutput(k, d, x);
    Delay(FirstDelay(k, x, y, d.s1), SecondDelay(k, x, y))
  }

  /** A constant input comes out unchanged in the long run. */
  predicate UnitGain(k: Coeffs) {
    k.b0 + k.b1 + k.b2 == 1.0 + k.a1 + k.a2
  }

  // ---- the vector filter ------------------------------------------------------------------------

  /** What the state array means: samples counted and summed, or two delays a component. */
  datatype Phase = Averaging(count: real, sums: seq<real>) | Running(delays: seq<Delay>)

  function Fresh(n: nat): (p: Phase) {
    Averaging(0.0, seq(n, _ => 0.0))
  }

  predicate DelayAt(state: array<Option<real>>, i: nat)
    requires 2 * i + 1 < state.Length
    reads state
  {
    state[2 * i].Some? && state[2 * i + 1].Some?
  }

  predicate SumAt(state: array<Option<real>>, i: nat)
    requires 2 + i < state.Length
    reads state
  {
    state[2 + i].Some?
  }

  predicate SumIs(state: array<Option<real>>, i: nat, v: real)
    requires 2 + i < state.Length
    reads state
  {
    state[2 + i] == Some(v)
  }

  /** The phases as the array lays them out: the sums overlap the later delays. */
  ghost predicate Laid(state: array<Option<real>>, n: nat)
    reads state
  {
    && 2 <= n && 2 * n <= state.Length
    && (state[0].None? && state[1].Some? ==>
          state[1].value >= 1.0 && forall i :: 0 <= i < n ==> SumAt(state, i))
    && (state[0].Some? ==> forall i :: 0 <= i < n ==> DelayAt(state, i))
  }

  ghost function View(state: array<Option<real>>, n: nat): (p: Phase)
    requires Laid(state, n)
    reads state
    ensures Sized(p, n)
  {
    if state[0].Some? then
      assert forall i :: 0 <= i < n ==> DelayAt(state, i);
      Running(seq(n, i requires 0 <= i < n && DelayAt(state, i) reads state =>
                       Delay(state[2 * i].value, state[2 * i + 1].value)))
    else if state[1].Some? then
      assert forall i :: 0 <= i < n ==> SumAt(state, i);
      Averaging(state[1].value, seq(n, i requires 0 <= i < n && SumAt(state, i) reads state => state[2 + i].value))
    else Fresh(n)
  }

  predicate Sized(p: Phase, n: nat) {
    match p
    case Averaging(count, sums) => |sums| == n && count >= 0.0
    case Running(delays) => |delays| == n
  }

  /** The outputs of one call. */
  function Outputs(k: Coeffs, p: Phase, x: seq<real>): (out: seq<real>)
    requires Sized(p, |x|)
    ensures |out| == |x|
  {
    match p
    case Averaging(count, sums) => seq(|x|, i requires 0 <= i < |x| => Mean(sums[i] + x[i], count + 1.0))
    case Running(delays) => seq(|x|, i requires 0 <= i < |x| => StepOutput(k, delays[i], x[i]))
  }

  /** The phase after one call: the average seeds the delays once it has lasted `tau`. */
  function Next(k: Coeffs, tau: real, ts: real, p: Phase, x: seq<real>): (q: Phase)
    requires Sized(p, |x|)
    ensures Sized(q, |x|)
  {
    match p
    case Averaging(count, sums) =>
      if Lasted(count + 1.0, ts) >= tau then
        Running(seq(|x|, i requires 0 <= i < |x| => InitialState(k, Outputs(k, p, x)[i])))
      else Averaging(count + 1.0, seq(|x|, i requires 0 <= i < |x| => sums[i] + x[i]))
    case Running(delays) => Running(seq(|x|, i requires 0 <= i < |x| => StepDelay(k, delays[i], x[i])))
  }

  method FilterStep(x: real, k: Coeffs, state: array<Option<real>>, at: nat) returns (y: real)
    requires at + 1 < state.Length && state[at].Some? && state[at + 1].Some?
    modifies state
    ensures var d := Delay(old(state[at]).value, old(state[at + 1]).value);
      && y == StepOutput(k, d, x)
      && state[at] == Some(StepDelay(k, d, x).s0) && state[at + 1] == Some(StepDelay(k, d, x).s1)
    ensures forall j :: 0 <= j < state.Length && j != at && j != at + 1 ==> state[j] == old(state[j])
  {
    y := k.b0 * x + state[at].value;
    state[at] := Some(FirstDelay(k, x, y, state[at + 1].value));
    state[at + 1] := Some(SecondDelay(k, x, y));
  }

  /** The first sample finds the count unset. */
  method ClearSums(n: nat, state: array<Option<real>>)
    requires Laid(state, n) && state[0].None?
    modifies state
    ensures state[0].None? && state[1] == Some(old(View(state, n)).count)
    ensures forall i :: 0 <= i < n ==> SumIs(state, i, old(View(state, n)).sums[i])
  {
    if state[1].None? {
      state[1] := Some(0.0);
      for i := 0 to n
        invariant state[0].None? && state[1] == Some(0.0)
        invariant forall j :: 2 <= j < 2 + i ==> state[j] == Some(0.0)
      {
        state[2 + i] := Some(0.0);
      }
    } else {
      forall i | 0 <= i < n ensures SumIs(state, i, View(state, n).sums[i]) {
        assert SumAt(state, i);
      }
    }
  }

  function Mean(sum: real, count: real): (mean: real)
    requires count > 0.0
  {
    sum / count
  }

  /** One more sample into the sums, and their mean out. */
  method Average(x: array<real>, n: nat, state: array<Option<real>>, out: array<real>)
    requires 2 <= n <= x.Length && n <= out.Length && Laid(state, n) && state[0].None?
    modifies state, out
    ensures state[0].None?
    ensures var p := old(View(state, n));
      && state[1] == Some(p.count + 1.0)
      && (forall i :: 0 <= i < n ==> SumIs(state, i, p.sums[i] + old(x[i])))
      && (forall i :: 0 <= i < n ==> out[i] == Mean(p.sums[i] + old(x[i]), p.count + 1.0))
    ensures forall j :: n <= j < out.Length ==> out[j] == old(out[j])
  {
    ghost var p := View(state, n);
    ClearSums(n, state);
    hide View, Mean;
    state[1] := Some(state[1].value + 1.0);
    for i := 0 to n
      invariant state[0].None? && state[1] == Some(p.count + 1.0)
      invariant forall j :: 0 <= j < i ==> SumIs(state, j, p.sums[j] + old(x[j]))
      invariant forall j :: i <= j < n ==> SumIs(state, j, p.sums[j])
      invariant forall j :: 0 <= j < i ==> out[j] == Mean(p.sums[j] + old(x[j]), p.count + 1.0)
      invariant forall j :: i <= j < n ==> x[j] == old(x[j])
      invariant forall j :: n <= j < out.Length ==> out[j] == old(out[j])
    {
      assert SumIs(state, i, p.sums[i]);
      state[2 + i] := Some(state[2 + i].value + x[i]);
      out[i] := Mean(state[2 + i].value, state[1].value);
    }
  }

  /** The means, one per component, turned into the delays of the steady state. */
  method SeedDelays(n: nat, k: Coeffs, state: array<Option<real>>, out: array<real>)
    requires 2 <= n <= out.Length && 2 * n <= state.Length
    modifies state
    ensures forall i :: 0 <= i < n ==> Holds(state, i, InitialState(k, out[i]))
  {
    for i := 0 to n
      invariant forall j :: 0 <= j < i ==> Holds(state, j, InitialState(k, out[j]))
    {
      var d := InitialState(k, out[i]);
      state[2 * i], state[2 * i + 1] := Some(d.s0), Some(d.s1);
    }
  }

  predicate Holds(state: array<Option<real>>, i: nat, d: Delay)
    requires 2 * i + 1 < state.Length
    reads state
  {
    state[2 * i] == Some(d.s0) && state[2 * i + 1] == Some(d.s1)
  }

  lemma ViewHolds(state: array<Option<real>>, n: nat, delays: seq<Delay>)
    requires 2 <= n && 2 * n <= state.Length && |delays| == n
    requires forall i :: 0 <= i < n ==> Holds(state, i, delays[i])
    ensures Laid(state, n) && View(state, n) == Running(delays)
  {
    assert Holds(state, 0, delays[0]);
    forall i | 0 <= i < n ensures DelayAt(state, i) {
      assert Holds(state, i, delays[i]);
    }
    assert View(state, n).delays == delays by {
      forall i | 0 <= i < n ensures View(state, n).delays[i] == delays[i] {
        assert Holds(state, i, delays[i]);
      }
    }
  }

  lemma ViewSums(state: array<Option<real>>, n: nat, count: real, sums: seq<real>)
    requires 2 <= n && 2 * n <= state.Length && |sums| == n
    requires state[0].None? && state[1] == Some(count) && count >= 1.0
    requires forall i :: 0 <= i < n ==> SumIs(state, i, sums[i])
    ensures Laid(state, n) && View(state, n) == Averaging(count, sums)
  {
    forall i | 0 <= i < n ensures SumAt(state, i) {
      assert SumIs(state, i, sums[i]);
    }
    assert View(state, n).sums == sums by {
      forall i | 0 <= i < n ensures View(state, n).sums[i] == sums[i] {
        assert SumIs(state, i, sums[i]);
      }
    }
  }

  method RunDelays(x: array<real>, n: nat, k: Coeffs, state: array<Option<real>>, out: array<real>)
    requires 2 <= n <= x.Length && n <= out.Length && Laid(state, n) && state[0].Some?
    modifies state, out
    ensures var p := old(View(state, n));
      && (forall i :: 0 <= i < n ==> Holds(state, i, StepDelay(k, p.delays[i], old(x[i]))))
      && (forall i :: 0 <= i < n ==> out[i] == StepOutput(k, p.delays[i], old(x[i])))
    ensures forall j :: n <= j < out.Length ==> out[j] == old(out[j])
  {
    ghost var p := View(state, n);
    assert forall j :: 0 <= j < n ==> DelayAt(state, j) ==> Holds(state, j, p.delays[j]);
    for i := 0 to n
      invariant forall j :: 0 <= j < i ==> Holds(state, j, StepDelay(k, p.delays[j], old(x[j])))
      invariant forall j :: i <= j < n ==> Holds(state, j, p.delays[j])
      invariant forall j :: 0 <= j < i ==> out[j] == StepOutput(k, p.delays[j], old(x[j]))
      invariant forall j :: i <= j < n ==> x[j] == old(x[j])
      invariant forall j :: n <= j < out.Length ==> out[j] == old(out[j])
    {
      hide StepDelay, StepOutput, View;
      assert Holds(state, i, p.delays[i]);
      var y := FilterStep(x[i], k, state, 2 * i);
      out[i] := y;
    }
  }

  /** `x` and `out` may be the same array. */
  method FilterVec(x: array<real>, n: nat, tau: real, ts: real, k: Coeffs,
                   state: array<Option<real>>, out: array<real>)
    requires 2 <= n <= x.Length && n <= out.Length && Laid(state, n)
    modifies state, out
    ensures Laid(state, n)
    ensures View(state, n) == Next(k, tau, ts, old(View(state, n)), old(x[..n]))
    ensures out[..n] == Outputs(k, old(View(state, n)), old(x[..n]))
    ensures forall j :: n <= j < out.Length ==> out[j] == old(out[j])
  {
    ghost var p, ins := View(state, n), x[..n];
    if state[0].None? {
      Average(x, n, state, out);
      assert out[..n] == Outputs(k, p, ins);
      ViewSums(state, n, p.count + 1.0, seq(n, i requires 0 <= i < n => p.sums[i] + ins[i]));
      if Lasted(state[1].value, ts) >= tau {
        SeedDelays(n, k, state, out);
        ViewHolds(state, n, seq(n, i requires 0 <= i < n => InitialState(k, Outputs(k, p, ins)[i])));
      }
    } else {
      RunDelays(x, n, k, state, out);
      assert out[..n] == Outputs(k, p, ins);
      ViewHolds(state, n, seq(n, i requires 0 <= i < n => StepDelay(k, p.delays[i], ins[i])));
    }
  }

  // ---- start-up ---------------------------------------------------------------------------------

  /** The phase after the samples `xs`, from a state array all unset. */
  function PhaseAfter(k: Coeffs, tau: real, ts: real, n: nat, xs: seq<seq<real>>): (p: Phase)
    requires forall j :: 0 <= j < |xs| ==> |xs[j]| == n
    ensures Sized(p, n)
    decreases |xs|
  {
    if xs == [] then Fresh(n)
    else Next(k, tau, ts, PhaseAfter(k, tau, ts, n, xs[..|xs| - 1]), xs[|xs| - 1])
  }

  /** The exact sum of component `i`. */
  function Total(xs: seq<seq<real>>, i: nat): (t: real)
    requires forall j :: 0 <= j < |xs| ==> i < |xs[j]|
    decreases |xs|
  {
    if xs == [] then 0.0 else Total(xs[..|xs| - 1], i) + xs[|xs| - 1][i]
  }

  lemma LastedGrows(count: real, ts: real)
    requires ts > 0.0
    ensures Lasted(count + 1.0, ts) == Lasted(count, ts) + ts
  {
  }

  /** The filter averages exactly until its samples have lasted `tau`, always at least once, and
      until then the overlapping array holds their number and their exact sums. */
  lemma {:induction false} AveragesWhile(k: Coeffs, tau: real, ts: real, n: nat, xs: seq<seq<real>>)
    requires ts > 0.0 && forall j :: 0 <= j < |xs| ==> |xs[j]| == n
    ensures var p := PhaseAfter(k, tau, ts, n, xs);
      && (p.Averaging? <==> xs == [] || Lasted(|xs| as real, ts) < tau)
      && (p.Averaging? ==> p.count == |xs| as real && forall i :: 0 <= i < n ==> p.sums[i] == Total(xs, i))
    decreases |xs|
  {
    hide Lasted;
    if xs != [] {
      var before := xs[..|xs| - 1];
      AveragesWhile(k, tau, ts, n, before);
      LastedGrows(|before| as real, ts);
      assert |xs| as real == |before| as real + 1.0;
    }
  }

  /** Each output of the start-up is the exact mean of all samples so far. */
  lemma StartsOnMeans(k: Coeffs, tau: real, ts: real, n: nat, xs: seq<seq<real>>, x: seq<real>)
    requires ts > 0.0 && |x| == n && forall j :: 0 <= j < |xs| ==> |xs[j]| == n
    requires xs == [] || Lasted(|xs| as real, ts) < tau
    ensures forall i :: 0 <= i < n ==>
      Outputs(k, PhaseAfter(k, tau, ts, n, xs), x)[i] == Mean(Total(xs + [x], i), |xs + [x]| as real)
  {
    hide Lasted, Mean;
    AveragesWhile(k, tau, ts, n, xs);
    assert (xs + [x])[..|xs|] == xs;
    assert |xs + [x]| as real == |xs| as real + 1.0;
  }

  /** The same sample, `j` times. */
  function Constant(c: seq<real>, j: nat): (xs: seq<seq<real>>)
    ensures |xs| == j && forall i :: 0 <= i < j ==> xs[i] == c
  {
    seq(j, _ => c)
  }

  /** Everything in the array says that the input has been `c` all along. */
  ghost predicate Steady(k: Coeffs, p: Phase, c: seq<real>) {
    match p
    case Averaging(count, sums) =>
      count >= 0.0 && |sums| == |c| && forall i :: 0 <= i < |c| ==> sums[i] == Product(count, c[i])
    case Running(delays) => |delays| == |c| && forall i :: 0 <= i < |c| ==> delays[i] == InitialState(k, c[i])
  }

  lemma MeanOfSame(count: real, x: real)
    requires count >= 0.0
    ensures Product(count, x) + x == Product(count + 1.0, x) && Mean(Product(count + 1.0, x), count + 1.0) == x
  {
  }

  /** One running step from the steady state of `x` puts out `x`, and stays there exactly if the
      gain is one. */
  lemma SteadyStep(k: Coeffs, x: real)
    ensures StepOutput(k, InitialState(k, x), x) == x
    ensures UnitGain(k) ==> StepDelay(k, InitialState(k, x), x) == InitialState(k, x)
    ensures StepOutput(k, StepDelay(k, InitialState(k, x), x), x) == x <==> x == 0.0 || UnitGain(k)
  {
    var gap := k.b0 + k.b1 + k.b2 - 1.0 - k.a1 - k.a2;
    assert StepOutput(k, InitialState(k, x), x) == x;
    assert StepDelay(k, InitialState(k, x), x).s0 == InitialState(k, x).s0 + Product(gap, x);
    assert StepDelay(k, InitialState(k, x), x).s1 == InitialState(k, x).s1;
  }

  lemma SteadyNext(k: Coeffs, tau: real, ts: real, p: Phase, c: seq<real>)
    requires UnitGain(k) && Sized(p, |c|) && Steady(k, p, c)
    ensures Outputs(k, p, c) == c && Steady(k, Next(k, tau, ts, p, c), c)
  {
    hide StepOutput, StepDelay, InitialState, Product, Mean, UnitGain, Lasted;
    forall i | 0 <= i < |c| ensures Outputs(k, p, c)[i] == c[i] {
      SteadyStep(k, c[i]);
      if p.Averaging? {
        MeanOfSame(p.count, c[i]);
      }
    }
    if p.Averaging? {
      forall i | 0 <= i < |c| ensures p.sums[i] + c[i] == Product(p.count + 1.0, c[i]) {
        MeanOfSame(p.count, c[i]);
      }
    } else {
      forall i | 0 <= i < |c| ensures StepDelay(k, p.delays[i], c[i]) == InitialState(k, c[i]) {
        SteadyStep(k, c[i]);
      }
    }
  }

  /** A constant input comes out as that constant from the first sample on, straight through
      the change of phase. */
  lemma {:induction false} ConstantForever(k: Coeffs, tau: real, ts: real, c: seq<real>, j: nat)
    requires UnitGain(k)
    ensures Steady(k, PhaseAfter(k, tau, ts, |c|, Constant(c, j)), c)
    ensures Outputs(k, PhaseAfter(k, tau, ts, |c|, Constant(c, j)), c) == c
    decreases j
  {
    hide UnitGain, Next, Outputs;
    if j == 0 {
      FreshSteady(k, c);
    } else {
      ConstantForever(k, tau, ts, c, j - 1);
      assert Constant(c, j)[..j - 1] == Constant(c, j - 1);
      SteadyNext(k, tau, ts, PhaseAfter(k, tau, ts, |c|, Constant(c, j - 1)), c);
    }
    SteadyNext(k, tau, ts, PhaseAfter(k, tau, ts, |c|, Constant(c, j)), c);
  }

  lemma FreshSteady(k: Coeffs, c: seq<real>)
    ensures Steady(k, Fresh(|c|), c)
  {
  }

  /** Every coefficient set the estimator uses has unit gain, the passthrough included. */
  lemma CoeffsHaveUnitGain(tau: real, ts: real, tan: real, root2: real)
    requires tau > 0.0 && ts > 0.0 && root2 > 0.0 && (tau >= ts / 2.0 ==> tan > 0.0)
    ensures UnitGain(FilterCoeffs(tau, ts, tan, root2))
  {
    if tau >= ts / 2.0 {
      ButterworthGain(tan, root2);
    }
  }

  lemma ButterworthGain(c: real, root2: real)
    requires c > 0.0 && root2 > 0.0
    ensures UnitGain(Butterworth(c, root2))
  {
    var d := c * c + root2 * c + 1.0;
    var u := c * c;
    var v := root2 * c;
    assert d > 1.0;
    Fractions(u, v, d);
  }

  lemma Fractions(u: real, v: real, d: real)
    requires d == u + v + 1.0 && d > 0.0
    ensures u / d + 2.0 * (u / d) + u / d == 1.0 + 2.0 * (u - 1.0) / d + (1.0 - v + u) / d
  {
    var q := 1.0 / d;
    assert q * d == 1.0;
    assert u / d == u * q;
    assert 2.0 * (u - 1.0) / d == 2.0 * (u - 1.0) * q;
    assert (1.0 - v + u) / d == (1.0 - v + u) * q;
    assert (u + v + 1.0) * q == 1.0;
  }

  // ---- what makes it this filter --------------------------------------------------------------

  /** The filter's numerator and denominator at the frequency whose bilinear image is `t`: the unit
      delay is (1 - it) / (1 + it), and both are multiplied by (1 + it) squared. */
  function Numerator(k: Coeffs, t: real): (n: Complex) {
    Sum3(Grown(Square(Complex(1.0, t)), k.b0), Grown(Times(Complex(1.0, t), Complex(1.0, -t)), k.b1),
         Grown(Square(Complex(1.0, -t)), k.b2))
  }

  function Denominator(k: Coeffs, t: real): (n: Complex) {
    Sum3(Square(Complex(1.0, t)), Grown(Times(Complex(1.0, t), Complex(1.0, -t)), k.a1),
         Grown(Square(Complex(1.0, -t)), k.a2))
  }

  function Sum3(x: Complex, y: Complex, z: Complex): (s: Complex) {
    Complex(x.re + y.re + z.re, x.im + y.im + z.im)
  }

  function Fourth(x: real): (y: real) {
    Product(Product(x, x), Product(x, x))
  }

  /** The running filter is the difference equation of its coefficients, whatever the delays hold. */
  lemma DifferenceEquation(k: Coeffs, d: Delay, x0: real, x1: real, x2: real)
    ensures var d1 := StepDelay(k, d, x0);
      var d2 := StepDelay(k, d1, x1);
      var y0, y1, y2 := StepOutput(k, d, x0), StepOutput(k, d1, x1), StepOutput(k, d2, x2);
      y2 == k.b0 * x2 + k.b1 * x1 + k.b2 * x0 - k.a1 * y1 - k.a2 * y0
  {
  }

  /** The response of the coefficients the estimator computes, at every frequency: below the limit none
      is changed; from it on they are a second-order Butterworth low-pass, whose power gain is
      c^4 / (c^4 + t^4), one half at the cut-off and falling off with the fourth power, with a double
      zero at Nyquist, where the delay is -1. */
  lemma ButterworthResponse(tau: real, ts: real, c: real, root2: real, t: real)
    requires tau > 0.0 && ts > 0.0 && c > 0.0 && root2 > 0.0 && root2 * root2 == 2.0
    ensures var k := FilterCoeffs(tau, ts, c, root2);
      if tau < ts / 2.0 then Numerator(k, t) == Denominator(k, t)
      else
        && Product(Fourth(c), Length2(Denominator(k, t))) == Product(Fourth(c) + Fourth(t), Length2(Numerator(k, t)))
        && k.b1 == 2.0 * k.b0 && k.b0 - k.b1 + k.b2 == 0.0 && k.b0 > 0.0
  {
    if tau >= ts / 2.0 {
      LowPass(c, root2, t);
      hide Product, Length2, Fourth, Denominator, Numerator, Butterworth;
    } else {
      PassesAll(t);
    }
  }

  lemma PassesAll(t: real)
    ensures Numerator(PASSTHROUGH, t) == Denominator(PASSTHROUGH, t)
  {
  }

  lemma LowPass(c: real, root2: real, t: real)
    requires c > 0.0 && root2 > 0.0 && root2 * root2 == 2.0
    ensures var k := Butterworth(c, root2);
      && Product(Fourth(c), Length2(Denominator(k, t))) == Product(Fourth(c) + Fourth(t), Length2(Numerator(k, t)))
      && k.b1 == 2.0 * k.b0 && k.b0 - k.b1 + k.b2 == 0.0 && k.b0 > 0.0
  {
    var k, d := Butterworth(c, root2), Divisor(c, root2);
    Coefficients(c, root2);
    RealPart(k, d, c, t);
    ImagPart(k, d, c, root2, t);
    NumeratorIs(k, t);
    DenominatorIs(k, t);
    WSquared(c, t, root2);
    hide Butterworth, Divisor, Product, RePart, ImPart, Numerator, Denominator, Cross;
    Response(d, Product(c, c), Product(t, t), Cross(c, t, root2), RePart(k, t), ImPart(k, t), 4.0 * k.b0);
    RealLength(4.0 * k.b0);
    hide Length2;
  }

  function Divisor(c: real, root2: real): (d: real) {
    c * c + root2 * c + 1.0
  }

  function Cross(c: real, t: real, root2: real): (w: real) {
    root2 * c * t
  }

  function RePart(k: Coeffs, t: real): (re: real) {
    (1.0 - t * t) * (1.0 + k.a2) + (1.0 + t * t) * k.a1
  }

  function ImPart(k: Coeffs, t: real): (im: real) {
    2.0 * t * (1.0 - k.a2)
  }

  lemma Coefficients(c: real, root2: real)
    requires c > 0.0 && root2 > 0.0
    ensures var k, d := Butterworth(c, root2), Divisor(c, root2);
      && d > 0.0 && k.b0 > 0.0 && 4.0 * k.b0 * d == 4.0 * Product(c, c) && k.b1 == 2.0 * k.b0 && k.b2 == k.b0
      && (1.0 + k.a2) * d == 2.0 + 2.0 * Product(c, c) && k.a1 * d == 2.0 * Product(c, c) - 2.0
      && (1.0 - k.a2) * d == 2.0 * Product(root2, c)
  {
    ProductSign(root2, c);
    ProductSign(c, c);
    var d := Divisor(c, root2);
    assert Product(root2, c) == root2 * c && Product(c, c) == c * c;
    Positive(c * c, d);
  }

  lemma Positive(x: real, d: real)
    requires x > 0.0 && d > 0.0
    ensures x / d > 0.0
  {
    var q := x / d;
    assert q * d == x;
    if q < 0.0 { ProductSign(-q, d); }
  }

  lemma NumeratorIs(k: Coeffs, t: real)
    requires k.b1 == 2.0 * k.b0 && k.b2 == k.b0
    ensures Numerator(k, t) == Complex(4.0 * k.b0, 0.0)
  {
  }

  lemma DenominatorIs(k: Coeffs, t: real)
    ensures Denominator(k, t) == Complex(RePart(k, t), ImPart(k, t))
  {
  }

  lemma RealLength(b: real)
    ensures Length2(Complex(b, 0.0)) == Product(b, b)
  {
  }

  lemma RealPart(k: Coeffs, d: real, c: real, t: real)
    requires (1.0 + k.a2) * d == 2.0 + 2.0 * Product(c, c) && k.a1 * d == 2.0 * Product(c, c) - 2.0
    ensures RePart(k, t) * d == 4.0 * (Product(c, c) - Product(t, t))
  {
    var p, v := 1.0 + k.a2, t * t;
    assert ((1.0 - v) * p + (1.0 + v) * k.a1) * d == (1.0 - v) * (p * d) + (1.0 + v) * (k.a1 * d);
  }

  lemma ImagPart(k: Coeffs, d: real, c: real, root2: real, t: real)
    requires (1.0 - k.a2) * d == 2.0 * Product(root2, c)
    ensures ImPart(k, t) * d == 4.0 * Cross(c, t, root2)
  {
    assert 2.0 * t * (1.0 - k.a2) * d == 2.0 * t * ((1.0 - k.a2) * d);
  }

  lemma WSquared(c: real, t: real, root2: real)
    requires root2 * root2 == 2.0
    ensures Product(Cross(c, t, root2), Cross(c, t, root2)) == 2.0 * Product(Product(c, c), Product(t, t))
  {
    assert (root2 * c * t) * (root2 * c * t) == (root2 * root2) * ((c * c) * (t * t));
  }

  lemma Response(d: real, u: real, v: real, w: real, re: real, im: real, b: real)
    requires d > 0.0 && re * d == 4.0 * (u - v) && im * d == 4.0 * w && b * d == 4.0 * u
    requires Product(w, w) == 2.0 * Product(u, v)
    ensures Product(Product(u, u), Length2(Complex(re, im))) == Product(Product(u, u) + Product(v, v), Product(b, b))
  {
    assert (re * re + im * im) * (d * d) == (re * d) * (re * d) + (im * d) * (im * d);
    assert (re * d) * (re * d) + (im * d) * (im * d) == 16.0 * (u * u + v * v);
    assert (b * b) * (d * d) == (b * d) * (b * d);
    assert (b * d) * (b * d) == 16.0 * (u * u);
    var x, y := (u * u) * (re * re + im * im), (u * u + v * v) * (b * b);
    assert x * (d * d) == (u * u) * (16.0 * (u * u + v * v));
    assert y * (d * d) == (u * u + v * v) * (16.0 * (u * u));
    ProductSign(d, d);
    Cancels(x, y, d * d);
  }

  lemma Cancels(x: real, y: real, k: real)
    requires k > 0.0 && x * k == y * k
    ensures x == y
  {
  }
}
