/** firmware/common/fusion/htk_fusion.cpp: the drift machinery around the vendored estimator.
    The estimator is an oracle: every sample brings whatever quaternion, bias, uncertainty and
    rest verdict it likes. Floats are reals; the gyro rate is the one the coarse zero-rate
    offset has been taken off. */
module Fusion {
  import opened Wire
  import opened Angles
  import opened Orientation

  const BIAS_OK_SET_DPS := 0.15
  const BIAS_OK_CLEAR_DPS := 0.25
  const BIAS_SLEW_DPS_PER_S := 0.01
  const YAWHOLD_SLEW_DPS := 0.1
  const REST_SUSTAIN_S := 2.0
  const REST_GYR_NORM_DPS := 0.5
  const REST_GYR_VERT_DPS := 0.3
  const REST_ACC_DEV_MAX := 0.5
  const REST_BAD_RUN_DROP := 3

  const ZERO := Vec3(0.0, 0.0, 0.0)

  /** One gyro sample and what the estimator says after it. */
  datatype Sample = Sample(gyr: Vec3, t: int, quat: Quat, bias: Vec3, sigma: real,
                           vqfRest: bool, accDev: real)

  datatype Event = Update(sample: Sample) | Reset | Suspend | Resume

  datatype Clock = Clock(haveT: bool, lastT: int)
  datatype Bias = Bias(ok: bool, latched: bool, prev: Vec3, filter: Vec3)
  datatype Gate = Gate(rest: bool, sustain: real, badRun: nat)
  datatype Servo = Servo(hold: real, ref: real)

  datatype State = State(clock: Clock, bias: Bias, gate: Gate, servo: Servo, reseed: bool,
                         suspended: bool, saved: Option<Vec3>)

  const BOOT := State(Clock(false, 0), Bias(false, false, ZERO, ZERO), Gate(false, 0.0, 0),
                      Servo(0.0, 0.0), true, false, None)

  // ---- the pieces of one update ---------------------------------------------------------------

  function StepDt(nominal: real, clock: Clock, t: int): (dt: real)
    requires nominal > 0.0
    ensures 0.5 * nominal <= dt <= 4.0 * nominal
  {
    if !clock.haveT then nominal
    else
      var dt := ((t - clock.lastT) % 0x1_0000_0000) as real * 0.000001;
      if dt < 0.5 * nominal || dt > 4.0 * nominal then nominal else dt
  }

  /** Converged once well below the threshold, until well above it. */
  function BiasOk(m: Math, ok: bool, sigma: real): (next: bool) {
    if ok then sigma <= Rad(m, BIAS_OK_CLEAR_DPS) else sigma < Rad(m, BIAS_OK_SET_DPS)
  }

  function Diff(u: Vec3, v: Vec3): (d: Vec3) {
    Vec3(u.x - v.x, u.y - v.y, u.z - v.z)
  }

  function Plus(u: Vec3, v: Vec3): (w: Vec3) {
    Vec3(u.x + v.x, u.y + v.y, u.z + v.z)
  }

  function MaxStep(m: Math, dt: real): (step: real) {
    Rad(m, BIAS_SLEW_DPS_PER_S) * dt
  }

  /** The new bias, but no farther from the accepted one than the slew limit. */
  function Clamped(m: Math, prev: Vec3, bias: Vec3, dt: real): (accepted: Vec3) {
    var d := Diff(bias, prev);
    var dn := m.root(Size2(d));
    if dn > MaxStep(m, dt) && dn > 0.0 then Plus(prev, Stretched(d, MaxStep(m, dt) / dn)) else bias
  }

  /** The clamped value is written back to the filter. */
  function BiasStep(m: Math, b: Bias, est: Vec3, sigma: real, dt: real): (next: Bias) {
    var ok := BiasOk(m, b.ok, sigma);
    if b.latched then
      var accepted := Clamped(m, b.prev, est, dt);
      Bias(ok, true, accepted, accepted)
    else if ok then Bias(ok, true, est, est)
    else Bias(ok, false, b.prev, est)
  }

  /** The bias the gate corrects the rate by: what the filter holds after the clamp. */
  predicate InstantOk(m: Math, s: Sample, bias: Vec3) {
    var bc := Diff(s.gyr, bias);
    var gs := GravityBody(s.quat);
    s.vqfRest
    && m.root(Size2(bc)) < Rad(m, REST_GYR_NORM_DPS)
    && Abs(Dot3(bc, gs)) < Rad(m, REST_GYR_VERT_DPS)
  }

  /** What the rest gate sees of one sample. */
  datatype Turn = Turn(reseed: bool, ok: bool, calm: bool, dt: real)

  const IDLE := Gate(false, 0.0, 0)

  function GateStep(g: Gate, turn: Turn): (next: Gate) {
    var g0 := if turn.reseed then IDLE else g;
    if !turn.ok then
      if g0.badRun + 1 >= REST_BAD_RUN_DROP then Gate(false, 0.0, g0.badRun + 1)
      else g0.(badRun := g0.badRun + 1)
    else if g0.rest then g0.(badRun := 0)
    else if turn.calm then
      Gate(g0.sustain + turn.dt >= REST_SUSTAIN_S, g0.sustain + turn.dt, 0)
    else Gate(false, 0.0, 0)
  }

  /** The firmware's heading: undefined, hence zero, where both components vanish. */
  function Phi(m: Math, q: Quat): (rad: real)
    requires m.pi > 0.0
  {
    if Abs(q.w) < 0.000001 && Abs(q.z) < 0.000001 then 0.0
    else Wrap(m.pi, 2.0 * Argument(m, Twist(q)))
  }

  function HoldLimit(m: Math, dt: real): (slew: real) {
    Rad(m, YAWHOLD_SLEW_DPS) * dt
  }

  function Limited(x: real, cap: real): (y: real) {
    if x > cap then cap else if x < -cap then -cap else x
  }

  /** How far the servo moves the hold on a resting sample. */
  function Correction(m: Math, s: Servo, phi: real, dt: real): (err: real)
    requires m.pi > 0.0
  {
    Limited(Wrap(m.pi, s.ref - Wrap(m.pi, s.hold + phi)), HoldLimit(m, dt))
  }

  function ServoStep(m: Math, s: Servo, holding: bool, phi: real, dt: real): (next: Servo)
    requires m.pi > 0.0
  {
    if holding then s.(hold := Wrap(m.pi, s.hold + Correction(m, s, phi, dt)))
    else s.(ref := Wrap(m.pi, s.hold + phi))
  }

  /** The quaternion sent on: the estimate with the hold applied on the world's side. */
  function Output(m: Math, hold: real, q: Quat): (o: Quat) {
    Normalized(m, if hold != 0.0 then Multiply(YawQuat(m, hold), q) else q)
  }

  function TurnOf(m: Math, nominal: real, s: State, o: Sample): (turn: Turn)
    requires nominal > 0.0
  {
    var dt := StepDt(nominal, s.clock, o.t);
    var bias := BiasStep(m, s.bias, o.bias, o.sigma, dt);
    Turn(s.reseed, InstantOk(m, o, bias.filter), o.accDev < REST_ACC_DEV_MAX, dt)
  }

  function Updated(m: Math, nominal: real, s: State, o: Sample): (next: State)
    requires m.pi > 0.0 && nominal > 0.0
  {
    var dt := StepDt(nominal, s.clock, o.t);
    var gate := GateStep(s.gate, TurnOf(m, nominal, s, o));
    State(Clock(true, o.t), BiasStep(m, s.bias, o.bias, o.sigma, dt), gate,
          ServoStep(m, s.servo, gate.rest && !s.reseed, Phi(m, o.quat), dt),
          false, s.suspended, s.saved)
  }

  function Step(m: Math, nominal: real, s: State, e: Event): (next: State)
    requires m.pi > 0.0 && nominal > 0.0
  {
    match e
    case Update(o) => Updated(m, nominal, s, o)
    case Reset =>
      s.(bias := Bias(false, false, s.bias.prev, ZERO), gate := Gate(false, 0.0, s.gate.badRun),
         servo := s.servo.(hold := 0.0), reseed := true, saved := None)
    case Suspend => s.(saved := Some(s.bias.filter), suspended := true)
    case Resume =>
      if !s.suspended then s
      else
        s.(bias := if s.saved.Some? then s.bias.(prev := s.saved.value, filter := s.saved.value)
                   else s.bias.(filter := ZERO),
           gate := Gate(false, 0.0, s.gate.badRun), reseed := true, suspended := false)
  }

  function Run(m: Math, nominal: real, s: State, events: seq<Event>): (end: State)
    requires m.pi > 0.0 && nominal > 0.0
    decreases |events|
  {
    if events == [] then s
    else Step(m, nominal, Run(m, nominal, s, events[..|events| - 1]), events[|events| - 1])
  }

  class Filter {
    const m: Math
    const nominal: real
    var biasOk: bool
    var rest: bool
    var restSustain: real
    var badRun: nat
    var psiHold: real
    var psiRef: real
    var reseed: bool
    var lastT: int
    var haveT: bool
    var suspended: bool
    var savedBias: Option<Vec3>
    var biasLatched: bool
    var biasPrev: Vec3
    var filterBias: Vec3

    ghost predicate Valid()
      reads this
    {
      m.pi > 0.0 && nominal > 0.0
    }

    ghost function View(): (s: State)
      reads this
    {
      State(Clock(haveT, lastT), Bias(biasOk, biasLatched, biasPrev, filterBias),
            Gate(rest, restSustain, badRun), Servo(psiHold, psiRef), reseed, suspended, savedBias)
    }

    constructor (lib: Math, interval: real)
      requires lib.pi > 0.0 && interval > 0.0
      ensures Valid() && View() == BOOT && m == lib && nominal == interval
    {
      m, nominal := lib, interval;
      biasOk, biasLatched, biasPrev, filterBias := false, false, ZERO, ZERO;
      rest, restSustain, badRun := false, 0.0, 0;
      psiHold, psiRef, reseed := 0.0, 0.0, true;
      haveT, lastT, suspended, savedBias := false, 0, false, None;
    }

    method AcceptBias(est: Vec3, sigma: real, dt: real)
      requires Valid()
      modifies this`biasOk, this`biasLatched, this`biasPrev, this`filterBias
      ensures View().bias == BiasStep(m, old(View().bias), est, sigma, dt)
    {
      hide Rad, MaxStep, Size2;
      biasOk := BiasOk(m, biasOk, sigma);
      filterBias := est;
      if !biasLatched {
        if biasOk {
          biasLatched := true;
          biasPrev := est;
        }
      } else {
        var bias := est;
        var d := Diff(est, biasPrev);
        var dn := m.root(Size2(d));
        if dn > MaxStep(m, dt) && dn > 0.0 {
          bias := Plus(biasPrev, Stretched(d, MaxStep(m, dt) / dn));
          filterBias := bias;
        }
        biasPrev := bias;
      }
    }

    method UpdateGate(ok: bool, calm: bool, dt: real)
      requires Valid()
      modifies this`rest, this`restSustain, this`badRun
      ensures View().gate == GateStep(old(View().gate), Turn(reseed, ok, calm, dt))
    {
      if reseed {
        restSustain, rest, badRun := 0.0, false, 0;
      }
      if !ok {
        badRun := badRun + 1;
        if badRun >= REST_BAD_RUN_DROP {
          restSustain, rest := 0.0, false;
        }
      } else {
        badRun := 0;
        if !rest {
          if calm {
            restSustain := restSustain + dt;
            if restSustain >= REST_SUSTAIN_S {
              rest := true;
            }
          } else {
            restSustain := 0.0;
          }
        }
      }
    }

    method HoldYaw(phi: real, dt: real)
      requires Valid()
      modifies this`psiHold, this`psiRef
      ensures View().servo == ServoStep(m, old(View().servo), rest && !reseed, phi, dt)
    {
      hide Wrap, HoldLimit;
      var psiOut := WrapPi(m.pi, psiHold + phi);
      if reseed || !rest {
        psiRef := psiOut;
      } else {
        var slew := HoldLimit(m, dt);
        var err := WrapPi(m.pi, psiRef - psiOut);
        if err > slew {
          err := slew;
        } else if err < -slew {
          err := -slew;
        }
        psiHold := WrapPi(m.pi, psiHold + err);
      }
    }

    method Update(o: Sample) returns (q: Quat)
      requires Valid()
      modifies this
      ensures Valid() && View() == Step(m, nominal, old(View()), Event.Update(o))
      ensures q == Output(m, psiHold, o.quat)
    {
      hide StepDt, InstantOk, GateStep, ServoStep, BiasStep, Phi, Output;
      var dt := StepDt(nominal, Clock(haveT, lastT), o.t);
      lastT, haveT := o.t, true;
      AcceptBias(o.bias, o.sigma, dt);
      UpdateGate(InstantOk(m, o, filterBias), o.accDev < REST_ACC_DEV_MAX, dt);
      HoldYaw(Phi(m, o.quat), dt);
      reseed := false;
      q := Output(m, psiHold, o.quat);
    }

    method Reset()
      requires Valid()
      modifies this
      ensures Valid() && View() == Step(m, nominal, old(View()), Event.Reset)
    {
      hide Updated;
      filterBias, biasOk, biasLatched := ZERO, false, false;
      rest, restSustain, psiHold, reseed := false, 0.0, 0.0, true;
      savedBias := None;
    }

    method Suspend()
      requires Valid()
      modifies this
      ensures Valid() && View() == Step(m, nominal, old(View()), Event.Suspend)
    {
      hide Updated;
      savedBias, suspended := Some(filterBias), true;
    }

    method Resume()
      requires Valid()
      modifies this
      ensures Valid() && View() == Step(m, nominal, old(View()), Event.Resume)
    {
      hide Updated;
      if !suspended {
        return;
      }
      suspended, filterBias := false, ZERO;
      if savedBias.Some? {
        filterBias, biasPrev := savedBias.value, savedBias.value;
      }
      rest, restSustain, reseed := false, 0.0, true;
    }
  }

  // ---- the rest gate, over whole runs ---------------------------------------------------------

  /** The gate after the first `n` samples. */
  function GateAfter(turns: seq<Turn>, n: nat): (g: Gate)
    requires n <= |turns|
  {
    if n == 0 then IDLE else GateStep(GateAfter(turns, n - 1), turns[n - 1])
  }

  /** Good-sample time in turns a..n. */
  function OkTime(turns: seq<Turn>, a: nat, n: nat): (t: real)
    requires a <= n <= |turns|
    decreases n
  {
    if n == a then 0.0
    else OkTime(turns, a, n - 1) + if turns[n - 1].ok then turns[n - 1].dt else 0.0
  }

  predicate ThreeBad(turns: seq<Turn>, i: nat)
    requires i + 2 < |turns|
  {
    !turns[i].ok && !turns[i + 1].ok && !turns[i + 2].ok
  }

  /** A stretch of samples in which nothing sets the gate back: no reseed after its first
      sample, no accelerometer deviation on a good sample, no three violations in a row. */
  ghost predicate Quiet(turns: seq<Turn>, a: nat, n: nat)
    requires a <= n <= |turns|
  {
    && (forall i :: a < i < n ==> !turns[i].reseed)
    && (forall i :: a <= i < n && turns[i].ok ==> turns[i].calm)
    && (forall i {:trigger ThreeBad(turns, i)} :: a <= i && i + 2 < n ==> !ThreeBad(turns, i))
  }

  /** Violations run up to now within a..n: their number, unless they fill it. */
  ghost predicate BadSince(turns: seq<Turn>, a: nat, n: nat, bad: nat)
    requires a <= n <= |turns|
  {
    && (forall i :: a <= i < n && n - bad <= i ==> !turns[i].ok)
    && (n - bad > a ==> turns[n - bad - 1].ok)
    && (n - bad < a ==> bad >= REST_BAD_RUN_DROP && n == a)
  }

  /** While the gate is open its timer counts exactly the good time of a quiet stretch that
      reaches up to now. */
  lemma {:induction false} OpenGate(turns: seq<Turn>, n: nat) returns (a: nat)
    requires n <= |turns| && !GateAfter(turns, n).rest
    ensures a <= n && Quiet(turns, a, n)
    ensures GateAfter(turns, n).sustain == OkTime(turns, a, n) < REST_SUSTAIN_S
    ensures BadSince(turns, a, n, GateAfter(turns, n).badRun)
    decreases n
  {
    hide OkTime, GateAfter;
    Unroll(turns, n);
    OkUnroll(turns, n, n);
    if n == 0 {
      a := 0;
    } else {
      var g, t := GateAfter(turns, n - 1), turns[n - 1];
      var start := n - 1;
      if !t.reseed && !g.rest {
        start := OpenGate(turns, n - 1);
      }
      OkUnroll(turns, start, n);
      OkUnroll(turns, n - 1, n - 1);
      var cleared := if t.ok then !t.calm else GateAfter(turns, n).badRun >= REST_BAD_RUN_DROP;
      a := if cleared then n else start;
    }
  }

  lemma Unroll(turns: seq<Turn>, n: nat)
    requires n <= |turns|
    ensures GateAfter(turns, n) == if n == 0 then IDLE else GateStep(GateAfter(turns, n - 1), turns[n - 1])
  {
    hide GateStep;
  }

  lemma OkUnroll(turns: seq<Turn>, a: nat, n: nat)
    requires a <= n <= |turns|
    ensures OkTime(turns, a, n) == if n == a then 0.0
                                   else OkTime(turns, a, n - 1) + if turns[n - 1].ok then turns[n - 1].dt else 0.0
  {
  }

  /** The gate arms only at the end of a quiet stretch with two seconds of good time, which
      the last sample completes. */
  lemma ArmsOnlyAfter(turns: seq<Turn>, n: nat) returns (a: nat)
    requires n < |turns| && (!GateAfter(turns, n).rest || turns[n].reseed) && GateAfter(turns, n + 1).rest
    ensures a <= n && Quiet(turns, a, n + 1) && turns[n].ok
    ensures OkTime(turns, a, n) < REST_SUSTAIN_S <= OkTime(turns, a, n + 1)
  {
    hide OkTime, GateAfter;
    Unroll(turns, n + 1);
    a := n;
    if !turns[n].reseed {
      a := OpenGate(turns, n);
    }
    OkUnroll(turns, a, n + 1);
    OkUnroll(turns, n, n);
  }

  /** Inside a quiet stretch: no good sample yet, or at most two violations since the last. */
  ghost predicate Steady(turns: seq<Turn>, a: nat, k: nat, bad: nat)
    requires a <= k <= |turns|
  {
    (forall i :: a <= i < k ==> !turns[i].ok)
    || (bad < REST_BAD_RUN_DROP && k - bad > a && turns[k - bad - 1].ok
        && forall i :: k - bad <= i < k ==> !turns[i].ok)
  }

  lemma {:induction false} QuietCounts(turns: seq<Turn>, a: nat, k: nat)
    requires a <= k <= |turns| && Quiet(turns, a, k)
    requires forall i :: 0 <= i < |turns| ==> turns[i].dt >= 0.0
    ensures Steady(turns, a, k, GateAfter(turns, k).badRun)
    ensures GateAfter(turns, k).rest || GateAfter(turns, k).sustain >= OkTime(turns, a, k)
    ensures (forall i :: a <= i < k ==> !turns[i].ok) ==> OkTime(turns, a, k) == 0.0
    decreases k
  {
    hide OkTime, GateAfter;
    OkUnroll(turns, a, k);
    SustainPositive(turns, k);
    if k > a {
      QuietShorter(turns, a, k);
      QuietCounts(turns, a, k - 1);
      SustainPositive(turns, k - 1);
      Unroll(turns, k);
      var b := GateAfter(turns, k - 1).badRun;
      assert k >= 3 && a <= k - 3 ==> !ThreeBad(turns, k - 3);
    }
  }

  lemma QuietShorter(turns: seq<Turn>, a: nat, k: nat)
    requires a < k <= |turns| && Quiet(turns, a, k)
    ensures Quiet(turns, a, k - 1)
  {
  }

  lemma {:induction false} SustainPositive(turns: seq<Turn>, n: nat)
    requires n <= |turns| && forall i :: 0 <= i < |turns| ==> turns[i].dt >= 0.0
    ensures GateAfter(turns, n).sustain >= 0.0
    decreases n
  {
    if n > 0 {
      SustainPositive(turns, n - 1);
    }
  }

  /** And it always arms then. */
  lemma ArmsWhenever(turns: seq<Turn>, a: nat, n: nat)
    requires a <= n < |turns| && Quiet(turns, a, n + 1) && turns[n].ok
    requires OkTime(turns, a, n + 1) >= REST_SUSTAIN_S
    requires forall i :: 0 <= i < |turns| ==> turns[i].dt >= 0.0
    ensures GateAfter(turns, n + 1).rest
  {
    hide OkTime, GateAfter;
    QuietCounts(turns, a, n + 1);
    Unroll(turns, n + 1);
  }

  /** Since a good sample armed it, the gate has seen at most two violations in a row. */
  lemma {:induction false} ArmedGate(turns: seq<Turn>, n: nat)
    requires n <= |turns| && GateAfter(turns, n).rest
    ensures var bad := GateAfter(turns, n).badRun;
      bad < REST_BAD_RUN_DROP && bad < n && turns[n - bad - 1].ok && forall i :: n - bad <= i < n ==> !turns[i].ok
    decreases n
  {
    hide GateAfter;
    Unroll(turns, n);
    if n > 0 && !turns[n - 1].ok {
      ArmedGate(turns, n - 1);
    }
  }

  /** Without a reseed an armed gate drops exactly on the third violation in a row, and the
      sample before the three was good. */
  lemma DropsOnThird(turns: seq<Turn>, n: nat)
    requires n < |turns| && GateAfter(turns, n).rest && !turns[n].reseed
    ensures !GateAfter(turns, n + 1).rest <==> n >= 3 && turns[n - 3].ok && ThreeBad(turns, n - 2)
  {
    hide GateAfter;
    Unroll(turns, n + 1);
    ArmedGate(turns, n);
  }

  /** Armed by turn `j` at the end of a quiet stretch from `a`, and nothing since then ends it. */
  ghost predicate Earned(turns: seq<Turn>, a: nat, j: nat, n: nat)
    requires n <= |turns|
  {
    && a <= j < n && Quiet(turns, a, j + 1) && turns[j].ok && OkTime(turns, a, j + 1) >= REST_SUSTAIN_S
    && (forall i :: j < i < n ==> !turns[i].reseed)
    && (forall i {:trigger ThreeBad(turns, i)} :: j < i && i + 2 < n ==> !ThreeBad(turns, i))
  }

  lemma {:induction false} RestEarned(turns: seq<Turn>, n: nat) returns (a: nat, j: nat)
    requires n <= |turns| && GateAfter(turns, n).rest
    ensures Earned(turns, a, j, n)
    decreases n
  {
    hide OkTime, GateAfter, GateStep, Quiet;
    Unroll(turns, n);
    if !GateAfter(turns, n - 1).rest || turns[n - 1].reseed {
      a := ArmsOnlyAfter(turns, n - 1);
      j := n - 1;
    } else {
      a, j := RestEarned(turns, n - 1);
      DropsOnThird(turns, n - 1);
      if n >= 3 && ThreeBad(turns, n - 3) && j < n - 3 {
        ThirdInARow(turns, n - 1);
      }
    }
  }

  /** A third violation in a row drops an armed gate, so the one before the three was good. */
  lemma ThirdInARow(turns: seq<Turn>, n: nat)
    requires 2 <= n < |turns| && GateAfter(turns, n).rest && ThreeBad(turns, n - 2)
    ensures !GateAfter(turns, n + 1).rest
  {
    hide GateAfter;
    Unroll(turns, n + 1);
    ArmedGate(turns, n);
  }

  lemma {:induction false} EarnedRests(turns: seq<Turn>, a: nat, j: nat, n: nat)
    requires n <= |turns| && Earned(turns, a, j, n)
    requires forall i :: 0 <= i < |turns| ==> turns[i].dt >= 0.0
    ensures GateAfter(turns, n).rest
    decreases n
  {
    hide OkTime, GateAfter, GateStep, Quiet;
    if n == j + 1 {
      ArmsWhenever(turns, a, j);
    } else {
      EarnedRests(turns, a, j, n - 1);
      DropsOnThird(turns, n - 1);
      assert n >= 4 ==> (j < n - 3 ==> !ThreeBad(turns, n - 3));
    }
  }

  /** The rest flag's exact meaning: a quiet stretch held two seconds of good time, ending on a
      good sample, and since then there was neither a reseed nor a third violation in a row. */
  lemma RestIff(turns: seq<Turn>, n: nat)
    requires n <= |turns| && forall i :: 0 <= i < |turns| ==> turns[i].dt >= 0.0
    ensures GateAfter(turns, n).rest <==> exists a, j :: Earned(turns, a, j, n)
  {
    hide OkTime, GateAfter, GateStep, Quiet, Earned;
    if GateAfter(turns, n).rest {
      var a, j := RestEarned(turns, n);
    }
    if exists a, j :: Earned(turns, a, j, n) {
      var a, j :| Earned(turns, a, j, n);
      EarnedRests(turns, a, j, n);
    }
  }

  function OkCount(turns: seq<Turn>, a: nat, n: nat): (count: nat)
    requires a <= n <= |turns|
    decreases n
  {
    if n == a then 0 else OkCount(turns, a, n - 1) + if turns[n - 1].ok then 1 else 0
  }

  /** Clamped intervals bound how many good samples a stretch of good time can hold. */
  lemma {:induction false} CountBounds(turns: seq<Turn>, a: nat, n: nat, nominal: real)
    requires a <= n <= |turns| && nominal > 0.0
    requires forall i :: 0 <= i < |turns| ==> 0.5 * nominal <= turns[i].dt <= 4.0 * nominal
    ensures Product(OkCount(turns, a, n) as real, 0.5 * nominal) <= OkTime(turns, a, n)
            <= Product(OkCount(turns, a, n) as real, 4.0 * nominal)
    decreases n
  {
    if n == a {
    } else {
      CountBounds(turns, a, n - 1, nominal);
      OneMore(OkCount(turns, a, n - 1), 0.5 * nominal);
      OneMore(OkCount(turns, a, n - 1), 4.0 * nominal);
      hide Product;
    }
  }

  lemma OneMore(k: nat, d: real)
    ensures Product((k + 1) as real, d) == Product(k as real, d) + d
    ensures Product(0.0, d) == 0.0
  {
    assert (k + 1) as real == k as real + 1.0;
  }

  /** So arming takes at least 2/(4 nominal) good samples, and fewer than 2/(0.5 nominal) before
      the last. */
  lemma SamplesNeeded(turns: seq<Turn>, n: nat, nominal: real) returns (a: nat)
    requires n < |turns| && nominal > 0.0
    requires forall i :: 0 <= i < |turns| ==> 0.5 * nominal <= turns[i].dt <= 4.0 * nominal
    requires (!GateAfter(turns, n).rest || turns[n].reseed) && GateAfter(turns, n + 1).rest
    ensures a <= n && Quiet(turns, a, n + 1)
    ensures Product(OkCount(turns, a, n + 1) as real, 4.0 * nominal) >= REST_SUSTAIN_S
    ensures Product(OkCount(turns, a, n) as real, 0.5 * nominal) < REST_SUSTAIN_S
    ensures OkCount(turns, a, n + 1) == OkCount(turns, a, n) + 1
  {
    a := ArmsOnlyAfter(turns, n);
    CountBounds(turns, a, n, nominal);
    CountBounds(turns, a, n + 1, nominal);
    hide Product, Quiet, GateStep;
  }

  /** The samples of a run, as the gate saw them. */
  function TurnsOf(m: Math, nominal: real, events: seq<Event>): (turns: seq<Turn>)
    requires m.pi > 0.0 && nominal > 0.0
    ensures forall i :: 0 <= i < |turns| ==> 0.5 * nominal <= turns[i].dt <= 4.0 * nominal
    decreases |events|
  {
    if events == [] then []
    else
      var before, e := events[..|events| - 1], events[|events| - 1];
      TurnsOf(m, nominal, before) +
      if e.Update? then [TurnOf(m, nominal, Run(m, nominal, BOOT, before), e.sample)] else []
  }

  lemma {:induction false} GatePrefix(turns: seq<Turn>, more: seq<Turn>, n: nat)
    requires n <= |turns|
    ensures GateAfter(turns + more, n) == GateAfter(turns, n)
    decreases n
  {
    hide GateStep;
    if n > 0 {
      GatePrefix(turns, more, n - 1);
    }
  }

  /** On any run from boot the machine's gate is the gate of its samples, unless a reset or a
      resume has just closed it. */
  lemma {:induction false} RunGate(m: Math, nominal: real, events: seq<Event>)
    requires m.pi > 0.0 && nominal > 0.0
    ensures var s, turns := Run(m, nominal, BOOT, events), TurnsOf(m, nominal, events);
      s.gate == GateAfter(turns, |turns|) || (s.reseed && !s.gate.rest)
    decreases |events|
  {
    hide TurnOf, BiasStep, ServoStep, Phi, StepDt;
    if events != [] {
      var before, e := events[..|events| - 1], events[|events| - 1];
      RunGate(m, nominal, before);
      var s, turns := Run(m, nominal, BOOT, before), TurnsOf(m, nominal, before);
      if e.Update? {
        var turn := TurnOf(m, nominal, s, e.sample);
        TurnReseeds(m, nominal, s, e.sample);
        GatePrefix(turns, [turn], |turns|);
        assert (turns + [turn])[|turns|] == turn;
      } else {
        assert TurnsOf(m, nominal, events) == turns;
      }
    }
  }

  lemma TurnReseeds(m: Math, nominal: real, s: State, o: Sample)
    requires nominal > 0.0
    ensures TurnOf(m, nominal, s, o).reseed == s.reseed
  {
    hide BiasStep, StepDt, InstantOk;
  }

  /** Whenever the unit says it is at rest, on any run, it earned that. */
  lemma RestIsEarned(m: Math, nominal: real, events: seq<Event>)
    requires m.pi > 0.0 && nominal > 0.0 && Run(m, nominal, BOOT, events).gate.rest
    ensures var turns := TurnsOf(m, nominal, events);
      exists a, j :: Earned(turns, a, j, |turns|)
  {
    hide TurnsOf, Run, Earned;
    RunGate(m, nominal, events);
    var turns := TurnsOf(m, nominal, events);
    var a, j := RestEarned(turns, |turns|);
  }

  // ---- the bias slew clamp --------------------------------------------------------------------

  function Dot3(a: Vec3, b: Vec3): (d: real) {
    a.x * b.x + a.y * b.y + a.z * b.z
  }

  /** The Euclidean distance of the two is at most `r`. */
  predicate Near(u: Vec3, v: Vec3, r: real) {
    Size2(Diff(u, v)) <= Product(r, r)
  }

  lemma ProductOrder(k: real, x: real, y: real)
    ensures k >= 0.0 && x <= y ==> Product(k, x) <= Product(k, y)
    ensures k > 0.0 && x < y ==> Product(k, x) < Product(k, y)
    ensures Product(k, x) == Product(x, k)
  {
    assert Product(k, y) - Product(k, x) == k * (y - x);
  }

  lemma SizeSign(a: Vec3)
    ensures Size2(a) >= 0.0 && (Size2(a) == 0.0 ==> a == ZERO)
  {
    assert Size2(a) == Product(a.x, a.x) + Product(a.y, a.y) + Product(a.z, a.z);
    hide Product, Size2;
    ProductSign(a.x, a.x);
    ProductSign(a.y, a.y);
    ProductSign(a.z, a.z);
  }

  lemma ProductMiddle(r: real, s: real)
    ensures Product(Product(s, s), Product(r, r)) == Product(Product(r, s), Product(r, s))
    ensures Product(Product(r, r), Product(s, s)) == Product(Product(r, s), Product(r, s))
  {
  }

  lemma SizeDiff(u: Vec3, v: Vec3)
    ensures Size2(Diff(u, v)) == Size2(u) - 2.0 * Dot3(u, v) + Size2(v)
  {
  }

  lemma SizeStretched(a: Vec3, s: real)
    ensures Size2(Stretched(a, s)) == Product(Product(s, s), Size2(a))
  {
  }

  lemma DotStretched(a: Vec3, s: real, b: Vec3, r: real)
    ensures Dot3(Stretched(a, s), Stretched(b, r)) == Product(Product(r, s), Dot3(a, b))
  {
  }

  /** The Cauchy-Schwarz inequality, for bounded vectors. */
  lemma DotBounded(a: Vec3, b: Vec3, r: real, s: real)
    requires r >= 0.0 && s >= 0.0 && Size2(a) <= Product(r, r) && Size2(b) <= Product(s, s)
    ensures Dot3(a, b) <= Product(r, s)
  {
    hide Size2, Product, Dot3;
    SizeSign(a);
    SizeSign(b);
    ProductSign(r, r);
    ProductSign(s, s);
    ProductSign(r, s);
    ProductSign(s, r);
    ProductOrder(r, s, s);
    var k := Product(r, s);
    if r == 0.0 || s == 0.0 {
      DotZero(a, b);
    } else {
      SizeSign(Diff(Stretched(a, s), Stretched(b, r)));
      SizeDiff(Stretched(a, s), Stretched(b, r));
      SizeStretched(a, s);
      SizeStretched(b, r);
      DotStretched(a, s, b, r);
      ProductOrder(Product(s, s), Size2(a), Product(r, r));
      ProductOrder(Product(r, r), Size2(b), Product(s, s));
      ProductMiddle(r, s);
      ProductOrder(k, k, Dot3(a, b));
    }
  }

  lemma DotZero(a: Vec3, b: Vec3)
    ensures a == ZERO || b == ZERO ==> Dot3(a, b) == 0.0
  {
  }

  lemma SizePlus(a: Vec3, b: Vec3)
    ensures Size2(Plus(a, b)) == Size2(a) + Size2(b) + 2.0 * Dot3(a, b)
  {
  }

  /** The triangle inequality. */
  lemma NearTriangle(u: Vec3, v: Vec3, w: Vec3, r: real, s: real)
    requires r >= 0.0 && s >= 0.0 && Near(u, v, r) && Near(v, w, s)
    ensures Near(u, w, r + s)
  {
    hide Size2, Product, Dot3;
    var a, b := Diff(u, v), Diff(v, w);
    assert Diff(u, w) == Plus(a, b);
    SizePlus(a, b);
    DotBounded(a, b, r, s);
    ProductSum(r, s, r, s);
    ProductOrder(s, r, r);
  }

  lemma NearDistance(m: Math, u: Vec3, v: Vec3, r: real)
    requires Lawful(m) && r >= 0.0
    ensures Near(u, v, r) <==> m.root(Size2(Diff(u, v))) <= r
  {
    hide Lawful, Size2;
    SizeSign(Diff(u, v));
    RootAt(m, Size2(Diff(u, v)));
    var d := m.root(Size2(Diff(u, v)));
    assert Product(d, d) == Size2(Diff(u, v));
    hide Product;
    ProductOrder(d, r, d);
    ProductOrder(r, d, r);
    ProductOrder(d, d, r);
    ProductOrder(r, r, d);
  }

  /** One accepted bias is at most the slew limit away from the one before. */
  lemma ClampNear(m: Math, prev: Vec3, bias: Vec3, dt: real)
    requires Lawful(m) && dt > 0.0
    ensures MaxStep(m, dt) > 0.0 && Near(Clamped(m, prev, bias, dt), prev, MaxStep(m, dt))
  {
    hide Lawful, Size2, Near;
    PiAt(m);
    var d, cap := Diff(bias, prev), MaxStep(m, dt);
    ProductSign(Rad(m, BIAS_SLEW_DPS_PER_S), dt);
    assert cap == Product(Rad(m, BIAS_SLEW_DPS_PER_S), dt);
    SizeSign(d);
    RootAt(m, Size2(d));
    var dn := m.root(Size2(d));
    hide MaxStep;
    if dn > cap {
      var k := cap / dn;
      assert k * dn == cap;
      assert Diff(Clamped(m, prev, bias, dt), prev) == Stretched(d, k);
      ShrunkSize(d, k, dn, cap);
      assert Near(Clamped(m, prev, bias, dt), prev, cap) by {
        NearIs(Clamped(m, prev, bias, dt), prev, cap);
      }
    } else {
      NearDistance(m, bias, prev, cap);
    }
  }

  lemma NearIs(u: Vec3, v: Vec3, r: real)
    ensures Near(u, v, r) <==> Size2(Diff(u, v)) <= Product(r, r)
  {
  }

  lemma ShrunkSize(d: Vec3, k: real, dn: real, cap: real)
    requires k * dn == cap && dn * dn == Size2(d)
    ensures Size2(Stretched(d, k)) == Product(cap, cap)
  {
    StretchedSize(d, k);
    assert k * k * (dn * dn) == (k * dn) * (k * dn);
  }

  /** The Euclidean distance, as the code computes it. */
  function Distance(m: Math, u: Vec3, v: Vec3): (r: real) {
    m.root(Size2(Diff(u, v)))
  }

  lemma RootIs(m: Math, s: real, x: real)
    requires Lawful(m) && x >= 0.0 && s == Product(x, x)
    ensures m.root(s) == x
  {
    hide Lawful, Product;
    ProductSign(x, x);
    RootAt(m, s);
    var r := m.root(s);
    assert Product(r, r) == s by { RootProduct(r); }
    ProductOrder(r, r, x);
    ProductOrder(x, r, x);
    ProductOrder(x, x, r);
    ProductOrder(r, x, r);
  }

  lemma RootProduct(r: real)
    ensures Product(r, r) == r * r
  {
  }

  lemma DistanceZero(m: Math, u: Vec3, v: Vec3)
    requires Lawful(m)
    ensures Distance(m, u, v) >= 0.0 && (Distance(m, u, v) == 0.0 <==> u == v)
  {
    hide Lawful, Size2;
    var d := Diff(u, v);
    SizeSign(d);
    RootAt(m, Size2(d));
    if u == v {
      SizeZero(d);
      NoProduct();
      RootIs(m, 0.0, 0.0);
    } else {
      assert d != ZERO;
    }
  }

  lemma NoProduct()
    ensures Product(0.0, 0.0) == 0.0
  {
  }

  /** An estimate within the slew limit is accepted as it is; one farther off is followed along the
      straight line by exactly the limit. */
  lemma ClampExact(m: Math, prev: Vec3, est: Vec3, dt: real)
    requires Lawful(m) && dt > 0.0
    ensures var cap, a, d := MaxStep(m, dt), Clamped(m, prev, est, dt), Distance(m, est, prev);
      && cap > 0.0
      && (d <= cap ==> a == est)
      && (d > cap ==> Distance(m, a, prev) == cap && Distance(m, est, a) == d - cap)
  {
    hide Lawful, Size2;
    PiAt(m);
    var d, cap := Diff(est, prev), MaxStep(m, dt);
    ProductSign(Rad(m, BIAS_SLEW_DPS_PER_S), dt);
    assert cap == Product(Rad(m, BIAS_SLEW_DPS_PER_S), dt);
    SizeSign(d);
    RootAt(m, Size2(d));
    var dn := m.root(Size2(d));
    hide MaxStep;
    if dn > cap {
      var a, k := Clamped(m, prev, est, dt), cap / dn;
      assert k * dn == cap;
      assert (1.0 - k) * dn == dn - cap;
      assert Diff(a, prev) == Stretched(d, k);
      LeftOver(est, prev, k);
      ShrunkSize(d, k, dn, cap);
      ShrunkSize(d, 1.0 - k, dn, dn - cap);
      RootIs(m, Size2(Stretched(d, k)), cap);
      RootIs(m, Size2(Stretched(d, 1.0 - k)), dn - cap);
    }
  }

  lemma LeftOver(est: Vec3, prev: Vec3, k: real)
    ensures Diff(est, Plus(prev, Stretched(Diff(est, prev), k))) == Stretched(Diff(est, prev), 1.0 - k)
  {
  }

  /** What one sample leaves in the filter: the estimate, whole, before convergence and within the
      slew limit of the last accepted one, and the nearest point the limit allows otherwise. */
  lemma AcceptedIs(m: Math, nominal: real, s: State, o: Sample)
    requires Lawful(m) && m.pi > 0.0 && nominal > 0.0
    ensures var b := Updated(m, nominal, s, o).bias;
      var cap := MaxStep(m, StepDt(nominal, s.clock, o.t));
      var d := Distance(m, o.bias, s.bias.prev);
      && (b.latched ==> b.prev == b.filter)
      && (s.bias.latched ==> b.latched)
      && if !s.bias.latched || d <= cap then b.filter == o.bias
         else Distance(m, b.filter, s.bias.prev) == cap && Distance(m, o.bias, b.filter) == d - cap
  {
    hide Lawful, StepDt, MaxStep, Clamped, TurnOf, GateStep, ServoStep, Phi, Distance, BiasOk;
    ClampExact(m, s.bias.prev, o.bias, StepDt(nominal, s.clock, o.t));
  }

  /** A bias the estimator stays with is followed all the way: at the slew limit, and then exactly. */
  lemma {:induction false} ConstantFollowed(m: Math, nominal: real, s: State, events: seq<Event>, est: Vec3)
    requires Lawful(m) && m.pi > 0.0 && nominal > 0.0 && s.bias.latched
    requires Reset !in events && Resume !in events
    requires forall k :: 0 <= k < |events| && events[k].Update? ==> events[k].sample.bias == est
    ensures var d, t := Distance(m, est, s.bias.prev), MaxStep(m, GateTime(m, nominal, s, events));
      var end := Run(m, nominal, s, events).bias;
      && end.latched && t >= 0.0
      && Distance(m, est, end.prev) == (if t >= d then 0.0 else d - t)
      && (t >= d ==> end.prev == est)
    decreases |events|
  {
    hide Lawful, MaxStep, StepDt, Distance, Updated;
    MaxStepAdds(m, 0.0, 0.0);
    DistanceZero(m, est, s.bias.prev);
    DistanceZero(m, est, Run(m, nominal, s, events).bias.prev);
    if events != [] {
      var before, e := events[..|events| - 1], events[|events| - 1];
      assert e in events;
      ConstantFollowed(m, nominal, s, before, est);
      var u := Run(m, nominal, s, before);
      if e.Update? {
        var x, y := GateTime(m, nominal, s, before), StepDt(nominal, u.clock, e.sample.t);
        assert y > 0.0;
        MaxStepAdds(m, x, y);
        MaxStepAdds(m, y, 0.0);
        AcceptedIs(m, nominal, u, e.sample);
        DistanceZero(m, est, Updated(m, nominal, u, e.sample).bias.prev);
        DistanceZero(m, est, u.bias.prev);
      }
    }
  }

  /** Converged, with the accepted bias in the filter, at most `r` away from `from`. */
  predicate Accepted(b: Bias, from: Vec3, r: real) {
    b.latched && b.filter == b.prev && Near(b.prev, from, r)
  }

  /** And so is whatever a resume would restore. */
  predicate Within(s: State, from: Vec3, r: real) {
    && Accepted(s.bias, from, r)
    && (s.suspended ==> s.saved.Some? && Near(s.saved.value, from, r))
  }

  /** The time the gate and the clamp account for. */
  function GateTime(m: Math, nominal: real, s: State, events: seq<Event>): (t: real)
    requires m.pi > 0.0 && nominal > 0.0
    ensures t >= 0.0
    decreases |events|
  {
    if events == [] then 0.0
    else
      var before, e := events[..|events| - 1], events[|events| - 1];
      GateTime(m, nominal, s, before) +
      if e.Update? then StepDt(nominal, Run(m, nominal, s, before).clock, e.sample.t) else 0.0
  }

  lemma MaxStepAdds(m: Math, x: real, y: real)
    requires m.pi > 0.0
    ensures MaxStep(m, x + y) == MaxStep(m, x) + MaxStep(m, y)
    ensures MaxStep(m, 0.0) == 0.0 && (x >= 0.0 ==> MaxStep(m, x) >= 0.0)
  {
    var k := Rad(m, BIAS_SLEW_DPS_PER_S);
    assert MaxStep(m, x) == Product(k, x);
    ProductSign(k, x);
    ProductSign(x, k);
  }

  lemma NearSelf(u: Vec3, r: real)
    requires r >= 0.0
    ensures Near(u, u, r)
  {
    hide Product, Size2;
    assert Diff(u, u) == ZERO;
    SizeZero(ZERO);
    ProductSign(r, r);
    ProductSign(0.0, r);
  }

  lemma SizeZero(a: Vec3)
    requires a == ZERO
    ensures Size2(a) == 0.0
  {
    assert a.x == 0.0 && a.y == 0.0 && a.z == 0.0;
  }

  lemma NearGrows(u: Vec3, v: Vec3, r: real, d: real)
    requires r >= 0.0 && d >= 0.0 && Near(u, v, r)
    ensures Near(u, v, r + d)
  {
    hide Near;
    NearSelf(v, d);
    NearTriangle(u, v, v, r, d);
  }

  /** One event other than a reset or a resume moves the accepted bias by at most one slew step. */
  lemma AcceptedStep(m: Math, nominal: real, s: State, e: Event, from: Vec3, r: real)
    requires Lawful(m) && m.pi > 0.0 && nominal > 0.0 && r >= 0.0 && Accepted(s.bias, from, r)
    requires e.Update? || e.Suspend?
    ensures var dt := if e.Update? then StepDt(nominal, s.clock, e.sample.t) else 0.0;
      MaxStep(m, dt) >= 0.0 && Accepted(Step(m, nominal, s, e).bias, from, r + MaxStep(m, dt))
  {
    hide Lawful, Clamped, StepDt, Near, MaxStep, TurnOf, GateStep, ServoStep, Phi, BiasOk;
    MaxStepAdds(m, 0.0, 0.0);
    if e.Update? {
      var dt := StepDt(nominal, s.clock, e.sample.t);
      ClampNear(m, s.bias.prev, e.sample.bias, dt);
      NearTriangle(Clamped(m, s.bias.prev, e.sample.bias, dt), s.bias.prev, from, MaxStep(m, dt), r);
    }
  }

  /** Any event but a reset moves it by no more than that away from where it and the saved one
      were. */
  lemma WithinStep(m: Math, nominal: real, s: State, e: Event, from: Vec3, r: real)
    requires Lawful(m) && m.pi > 0.0 && nominal > 0.0 && r >= 0.0 && Within(s, from, r) && !e.Reset?
    ensures var dt := if e.Update? then StepDt(nominal, s.clock, e.sample.t) else 0.0;
      MaxStep(m, dt) >= 0.0 && Within(Step(m, nominal, s, e), from, r + MaxStep(m, dt))
  {
    hide Lawful, BiasStep, StepDt, Near, MaxStep, TurnOf, GateStep, ServoStep, Phi;
    MaxStepAdds(m, 0.0, 0.0);
    if !e.Resume? {
      AcceptedStep(m, nominal, s, e, from, r);
    }
    if e.Update? && s.suspended {
      NearGrows(s.saved.value, from, r, MaxStep(m, StepDt(nominal, s.clock, e.sample.t)));
    }
  }

  /** Bias cannot be absorbed quickly: whatever the estimator says, and whenever the unit is
      suspended, sampled and resumed, the accepted bias moves at most 0.01 deg/s for every second
      of samples, and it is the filter's own. */
  lemma {:induction false} BiasCreeps(m: Math, nominal: real, s: State, events: seq<Event>, from: Vec3, r: real)
    requires Lawful(m) && m.pi > 0.0 && nominal > 0.0 && r >= 0.0
    requires Within(s, from, r) && Reset !in events
    ensures Within(Run(m, nominal, s, events), from, r + MaxStep(m, GateTime(m, nominal, s, events)))
    decreases |events|
  {
    hide Lawful, Step, MaxStep, StepDt, Within;
    MaxStepAdds(m, 0.0, 0.0);
    if events != [] {
      var before, e := events[..|events| - 1], events[|events| - 1];
      assert e in events;
      BiasCreeps(m, nominal, s, before, from, r);
      var t := Run(m, nominal, s, before);
      var x := GateTime(m, nominal, s, before);
      var y := if e.Update? then StepDt(nominal, t.clock, e.sample.t) else 0.0;
      MaxStepAdds(m, x, y);
      WithinStep(m, nominal, t, e, from, r + MaxStep(m, x));
    }
  }

  /** Without a resume what is saved does not matter. */
  lemma {:induction false} AcceptedCreeps(m: Math, nominal: real, s: State, events: seq<Event>, from: Vec3, r: real)
    requires Lawful(m) && m.pi > 0.0 && nominal > 0.0 && r >= 0.0
    requires Accepted(s.bias, from, r) && Reset !in events && Resume !in events
    ensures Accepted(Run(m, nominal, s, events).bias, from, r + MaxStep(m, GateTime(m, nominal, s, events)))
    decreases |events|
  {
    hide Lawful, Step, MaxStep, StepDt, Accepted;
    MaxStepAdds(m, 0.0, 0.0);
    if events != [] {
      var before, e := events[..|events| - 1], events[|events| - 1];
      assert e in events;
      AcceptedCreeps(m, nominal, s, before, from, r);
      var t := Run(m, nominal, s, before);
      var x := GateTime(m, nominal, s, before);
      var y := if e.Update? then StepDt(nominal, t.clock, e.sample.t) else 0.0;
      MaxStepAdds(m, x, y);
      AcceptedStep(m, nominal, t, e, from, r + MaxStep(m, x));
    }
  }

  // ---- convergence, and what suspend, resume and reset do to it -------------------------------

  /** The uncertainties of the samples since the last reset. */
  function Sigmas(events: seq<Event>): (sigmas: seq<real>)
    decreases |events|
  {
    if events == [] then []
    else
      var before, e := events[..|events| - 1], events[|events| - 1];
      if e.Reset? then [] else Sigmas(before) + if e.Update? then [e.sample.sigma] else []
  }

  /** Some uncertainty fell below the lower threshold, and none since exceeded the upper one. */
  ghost predicate Sure(m: Math, sigmas: seq<real>) {
    exists j :: 0 <= j < |sigmas| && sigmas[j] < Rad(m, 0.15) &&
                forall i :: j < i < |sigmas| ==> sigmas[i] <= Rad(m, 0.25)
  }

  ghost predicate EverSure(m: Math, sigmas: seq<real>) {
    exists j :: 0 <= j < |sigmas| && sigmas[j] < Rad(m, 0.15)
  }

  lemma RadGrows(m: Math, x: real, y: real)
    requires m.pi > 0.0 && x <= y
    ensures Rad(m, x) <= Rad(m, y)
  {
    assert Rad(m, y) - Rad(m, x) == (y - x) * (m.pi / 180.0);
    assert m.pi / 180.0 >= 0.0;
  }

  /** On every run from boot the reported convergence is exactly that hysteresis, and the clamp is on
      exactly from the first convergence since the last reset. */
  lemma {:induction false} ConvergedIff(m: Math, nominal: real, events: seq<Event>)
    requires m.pi > 0.0 && nominal > 0.0
    ensures Run(m, nominal, BOOT, events).bias.ok <==> Sure(m, Sigmas(events))
    ensures Run(m, nominal, BOOT, events).bias.latched <==> EverSure(m, Sigmas(events))
    decreases |events|
  {
    hide Rad, StepDt, Clamped, TurnOf, GateStep, ServoStep, Phi, Sure, EverSure;
    if events == [] {
      NotSure(m);
    } else {
      var before, e := events[..|events| - 1], events[|events| - 1];
      ConvergedIff(m, nominal, before);
      if e.Update? {
        SureStep(m, Sigmas(before), e.sample.sigma);
      } else if e.Reset? {
        NotSure(m);
      } else {
        assert Sigmas(before) + [] == Sigmas(before);
      }
    }
  }

  lemma NotSure(m: Math)
    ensures !Sure(m, []) && !EverSure(m, [])
  {
  }

  lemma SureStep(m: Math, sigmas: seq<real>, sigma: real)
    requires m.pi > 0.0
    ensures Sure(m, sigmas + [sigma]) <==>
            (if Sure(m, sigmas) then sigma <= Rad(m, 0.25) else sigma < Rad(m, 0.15))
    ensures EverSure(m, sigmas + [sigma]) <==> EverSure(m, sigmas) || sigma < Rad(m, 0.15)
    ensures Sure(m, sigmas) ==> EverSure(m, sigmas)
  {
    hide Rad;
    RadGrows(m, 0.15, 0.25);
    var n, more := |sigmas|, sigmas + [sigma];
    assert more[n] == sigma && forall i :: 0 <= i < n ==> more[i] == sigmas[i];
    if sigma < Rad(m, 0.15) {
      assert Sure(m, more) && EverSure(m, more);
    }
    if Sure(m, sigmas) && sigma <= Rad(m, 0.25) {
      var j :| 0 <= j < n && sigmas[j] < Rad(m, 0.15) && forall i :: j < i < n ==> sigmas[i] <= Rad(m, 0.25);
      assert more[j] == sigmas[j];
      assert forall i :: j < i < n + 1 ==> more[i] <= Rad(m, 0.25);
      assert Sure(m, more);
    }
    if EverSure(m, sigmas) {
      var j :| 0 <= j < n && sigmas[j] < Rad(m, 0.15);
      assert more[j] == sigmas[j];
    }
  }

  /** Whatever is sampled while the unit is suspended, its resume puts back the bias the filter held
      when it was suspended, and keeps convergence as the samples left it, with the clamp there; a
      second resume does nothing. */
  lemma {:induction false} SuspendRestores(m: Math, nominal: real, s: State, asleep: seq<Event>)
    requires m.pi > 0.0 && nominal > 0.0 && forall k :: 0 <= k < |asleep| ==> asleep[k].Update?
    ensures var t := Run(m, nominal, Step(m, nominal, s, Suspend), asleep);
      var end := Step(m, nominal, t, Resume);
      && t.suspended && t.saved == Some(s.bias.filter)
      && end.bias.filter == s.bias.filter && end.bias.prev == s.bias.filter
      && end.bias.latched == t.bias.latched && !end.gate.rest && end.servo == t.servo && !end.suspended
      && Step(m, nominal, end, Resume) == end
    decreases |asleep|
  {
    hide BiasStep, StepDt, TurnOf, GateStep, ServoStep, Phi;
    if asleep != [] {
      SuspendRestores(m, nominal, s, asleep[..|asleep| - 1]);
    }
  }

  /** Two machines no sample can tell apart: what the clamp compares with matters once it is on, and
      what the gate counted and the servo holds to only if the next sample does not reseed them. */
  predicate Alike(a: State, b: State) {
    && a.clock == b.clock && a.reseed == b.reseed && a.suspended == b.suspended && a.saved == b.saved
    && a.bias.ok == b.bias.ok && a.bias.latched == b.bias.latched && a.bias.filter == b.bias.filter
    && (a.bias.latched ==> a.bias.prev == b.bias.prev)
    && a.servo.hold == b.servo.hold && a.gate.rest == b.gate.rest
    && (!a.reseed ==> a.gate == b.gate && a.servo == b.servo)
  }

  lemma AlikeStep(m: Math, nominal: real, a: State, b: State, e: Event)
    requires m.pi > 0.0 && nominal > 0.0 && Alike(a, b)
    ensures Alike(Step(m, nominal, a, e), Step(m, nominal, b, e))
  {
    hide StepDt, Clamped, InstantOk, Phi, BiasOk, Wrap, HoldLimit;
  }

  /** A reset forgets: whatever a machine went through, from a reset on it says for ever what one just
      booted says, given the clock and whether it is suspended. */
  lemma {:induction false} ResetForgets(m: Math, nominal: real, a: State, events: seq<Event>)
    requires m.pi > 0.0 && nominal > 0.0
    ensures var s := Run(m, nominal, Step(m, nominal, a, Reset), events);
      var t := Run(m, nominal, BOOT.(clock := a.clock, suspended := a.suspended), events);
      Alike(s, t) && forall q :: Output(m, s.servo.hold, q) == Output(m, t.servo.hold, q)
    decreases |events|
  {
    hide Updated, Output;
    if events != [] {
      var before, e := events[..|events| - 1], events[|events| - 1];
      ResetForgets(m, nominal, a, before);
      AlikeStep(m, nominal, Run(m, nominal, Step(m, nominal, a, Reset), before),
                Run(m, nominal, BOOT.(clock := a.clock, suspended := a.suspended), before), e);
    }
  }

  /** The sample's rate, once the bias the filter then holds is taken off. */
  function Turning(m: Math, nominal: real, s: State, o: Sample): (rate: Vec3)
    requires m.pi > 0.0 && nominal > 0.0
  {
    Diff(o.gyr, Updated(m, nominal, s, o).bias.filter)
  }

  /** It turns no slower than 0.5 deg/s, or no slower than 0.3 deg/s about the vertical, or the
      estimator sees motion. */
  predicate Moving(m: Math, nominal: real, s: State, o: Sample)
    requires m.pi > 0.0 && nominal > 0.0
  {
    var rate := Turning(m, nominal, s, o);
    || m.root(Size2(rate)) >= Rad(m, 0.5)
    || Abs(Dot3(rate, GravityBody(o.quat))) >= Rad(m, 0.3)
    || !o.vqfRest
  }

  /** A sample is good for the gate exactly unless it is such. */
  lemma GoodIff(m: Math, nominal: real, s: State, o: Sample)
    requires m.pi > 0.0 && nominal > 0.0
    ensures var turn := TurnOf(m, nominal, s, o);
      && (turn.ok <==> !Moving(m, nominal, s, o))
      && (turn.calm <==> o.accDev < 0.5)
      && turn.reseed == s.reseed && !Updated(m, nominal, s, o).reseed
      && Updated(m, nominal, s, o).gate == GateStep(s.gate, turn)
  {
    hide StepDt, BiasStep, ServoStep, Phi, GateStep, Rad, GravityBody, Size2, Dot3, Diff;
    var bias := BiasStep(m, s.bias, o.bias, o.sigma, StepDt(nominal, s.clock, o.t));
    assert Turning(m, nominal, s, o) == Diff(o.gyr, bias.filter);
  }

  /** Three such samples in a row end rest, whatever came before. */
  lemma MotionEndsRest(m: Math, nominal: real, s: State, o1: Sample, o2: Sample, o3: Sample)
    requires m.pi > 0.0 && nominal > 0.0
    ensures var s1 := Updated(m, nominal, s, o1);
      var s2 := Updated(m, nominal, s1, o2);
      Moving(m, nominal, s, o1) && Moving(m, nominal, s1, o2) && Moving(m, nominal, s2, o3) ==>
        !Updated(m, nominal, s2, o3).gate.rest
  {
    hide Updated, Moving, TurnOf, GateStep;
    var s1 := Updated(m, nominal, s, o1);
    var s2 := Updated(m, nominal, s1, o2);
    GoodIff(m, nominal, s, o1);
    GoodIff(m, nominal, s1, o2);
    GoodIff(m, nominal, s2, o3);
    BadRunGrows(s.gate, TurnOf(m, nominal, s, o1));
    BadRunGrows(s1.gate, TurnOf(m, nominal, s1, o2));
    BadRunGrows(s2.gate, TurnOf(m, nominal, s2, o3));
  }

  /** A microsecond counter of 32 bits: the interval between two successive samples is the true time
      between them whenever that lies between half and four times the nominal one. */
  lemma IntervalTrue(m: Math, nominal: real, s: State, o: Sample, gap: nat, t: int)
    requires m.pi > 0.0 && nominal > 0.0 && gap < 0x1_0000_0000
    requires (t - o.t - gap) % 0x1_0000_0000 == 0
    ensures var dt, true0 := StepDt(nominal, Updated(m, nominal, s, o).clock, t), gap as real * 0.000001;
      dt == if 0.5 * nominal <= true0 <= 4.0 * nominal then true0 else nominal
  {
    hide BiasStep, TurnOf, GateStep, ServoStep, Phi;
    assert (t - o.t) % 0x1_0000_0000 == gap by {
      assert t - o.t == ((t - o.t - gap) / 0x1_0000_0000) * 0x1_0000_0000 + gap;
    }
  }

  lemma BadRunGrows(g: Gate, turn: Turn)
    ensures !turn.ok ==> GateStep(g, turn).badRun == (if turn.reseed then 1 else g.badRun + 1)
    ensures !turn.ok && GateStep(g, turn).badRun >= 3 ==> !GateStep(g, turn).rest
  {
  }

  lemma {:induction false} RunAppend(m: Math, nominal: real, s: State, a: seq<Event>, b: seq<Event>)
    requires m.pi > 0.0 && nominal > 0.0
    ensures Run(m, nominal, s, a + b) == Run(m, nominal, Run(m, nominal, s, a), b)
    decreases |b|
  {
    hide Step;
    if b == [] {
      assert a + b == a;
    } else {
      RunAppend(m, nominal, s, a, b[..|b| - 1]);
      assert (a + b)[..|a + b| - 1] == a + b[..|b| - 1];
    }
  }

  /** A sample that leaves the machine converged leaves the accepted bias in the filter. */
  lemma ConvergedHere(m: Math, nominal: real, s: State, o: Sample)
    requires m.pi > 0.0 && nominal > 0.0 && Updated(m, nominal, s, o).bias.latched
    ensures Accepted(Updated(m, nominal, s, o).bias, Updated(m, nominal, s, o).bias.prev, 0.0)
  {
    hide Clamped, StepDt, TurnOf, GateStep, ServoStep, Phi, BiasOk, Near;
    NearSelf(Updated(m, nominal, s, o).bias.prev, 0.0);
  }

  /** So it is on every run from boot, from any sample on that finds or leaves the machine
      converged, the first convergence included: until a reset, or until a resume if the sample
      was taken while suspended, the accepted bias stays, in Euclidean distance, within the slew
      limit of what it was there. */
  lemma SinceConvergence(m: Math, nominal: real, before: seq<Event>, o: Sample, after: seq<Event>)
    requires Lawful(m) && m.pi > 0.0 && nominal > 0.0 && Reset !in after
    requires var t := Run(m, nominal, BOOT, before + [Update(o)]);
      t.bias.latched && (t.suspended ==> Resume !in after)
    ensures var t := Run(m, nominal, BOOT, before + [Update(o)]);
      var end := Run(m, nominal, BOOT, before + [Update(o)] + after);
      && end.bias.latched && end.bias.filter == end.bias.prev
      && m.root(Size2(Diff(end.bias.prev, t.bias.prev))) <= MaxStep(m, GateTime(m, nominal, t, after))
  {
    hide Lawful, Updated, MaxStep, Near, Size2;
    var first := before + [Update(o)];
    assert first[..|first| - 1] == before;
    var s, t := Run(m, nominal, BOOT, before), Run(m, nominal, BOOT, first);
    assert t == Updated(m, nominal, s, o);
    ConvergedHere(m, nominal, s, o);
    if t.suspended {
      AcceptedCreeps(m, nominal, t, after, t.bias.prev, 0.0);
    } else {
      BiasCreeps(m, nominal, t, after, t.bias.prev, 0.0);
    }
    RunAppend(m, nominal, BOOT, first, after);
    var time := GateTime(m, nominal, t, after);
    MaxStepAdds(m, time, 0.0);
    NearDistance(m, Run(m, nominal, t, after).bias.prev, t.bias.prev, MaxStep(m, time));
  }

  // ---- the yaw-hold servo ---------------------------------------------------------------------

  /** What the servo sees of one sample. */
  datatype Look = Look(holding: bool, phi: real, dt: real)

  function ServoAfter(m: Math, s: Servo, looks: seq<Look>): (end: Servo)
    requires m.pi > 0.0
    decreases |looks|
  {
    if looks == [] then s
    else
      var n := |looks| - 1;
      ServoStep(m, ServoAfter(m, s, looks[..n]), looks[n].holding, looks[n].phi, looks[n].dt)
  }

  lemma LimitedFacts(x: real, cap: real)
    requires cap >= 0.0
    ensures Abs(Limited(x, cap)) <= cap
    ensures Abs(x) <= cap ==> Limited(x, cap) == x
  {
  }

  lemma HoldLimitFacts(m: Math, x: real, y: real)
    requires m.pi > 0.0
    ensures HoldLimit(m, x + y) == HoldLimit(m, x) + HoldLimit(m, y)
    ensures HoldLimit(m, 0.0) == 0.0 && (x >= 0.0 ==> HoldLimit(m, x) >= 0.0)
  {
    var k := Rad(m, YAWHOLD_SLEW_DPS);
    assert HoldLimit(m, x) == Product(k, x);
    ProductSign(k, x);
    ProductSign(x, k);
  }

  /** The output heading: the hold plus the estimate's heading. */
  function Psi(s: Servo, phi: real): (rad: real) {
    s.hold + phi
  }

  /** A resting sample whose drift the slew allows leaves the output where the reference is. */
  lemma HeldStep(m: Math, s: Servo, before: real, phi: real, dt: real)
    requires m.pi > 0.0 && dt >= 0.0
    requires Congruent(m.pi, s.ref, Psi(s, before)) && Abs(Wrap(m.pi, before - phi)) <= HoldLimit(m, dt)
    ensures ServoStep(m, s, true, phi, dt).ref == s.ref
    ensures Congruent(m.pi, s.ref, Psi(ServoStep(m, s, true, phi, dt), phi))
  {
    hide Wrap, HoldLimit, Congruent;
    HoldLimitFacts(m, dt, 0.0);
    var out := Wrap(m.pi, s.hold + phi);
    var err := Wrap(m.pi, s.ref - out);
    WrapRange(m.pi, s.hold + phi);
    WrapRange(m.pi, s.ref - out);
    CongruentSum(m.pi, s.ref, Psi(s, before), out, s.hold + phi);
    assert Psi(s, before) - (s.hold + phi) == before - phi;
    WrapSame(m.pi, s.ref - out, before - phi);
    LimitedFacts(err, HoldLimit(m, dt));
    var moved := Wrap(m.pi, s.hold + err);
    WrapRange(m.pi, s.hold + err);
    CongruentSelf(m.pi, phi);
    CongruentSum(m.pi, moved, s.hold + err, phi, phi);
    Settled(m.pi, s.hold, phi, s.ref, out, err, moved);
  }

  lemma Settled(pi: real, hold: real, phi: real, ref: real, out: real, err: real, moved: real)
    requires Congruent(pi, moved + phi, hold + err + phi)
    requires Congruent(pi, err, ref - out) && Congruent(pi, out, hold + phi)
    ensures Congruent(pi, ref, moved + phi)
  {
    hide Congruent;
    CongruentSelf(pi, err);
    CongruentSelf(pi, out);
    CongruentSum(pi, out, hold + phi, err, err);
    CongruentSum(pi, out, out, err, ref - out);
    assert out + (ref - out) == ref && hold + phi + err == hold + err + phi;
    CongruentBack(pi, out + err, ref);
    CongruentChain(pi, ref, out + err, hold + err + phi);
    CongruentBack(pi, moved + phi, hold + err + phi);
    CongruentChain(pi, ref, hold + err + phi, moved + phi);
  }

  /** The estimate's heading before look `k`. */
  function PhiBefore(start: real, looks: seq<Look>, k: nat): (phi: real)
    requires k <= |looks|
  {
    if k == 0 then start else looks[k - 1].phi
  }

  /** Look `k` rests, and the estimate drifted no farther than the servo may move. */
  predicate SlowRest(m: Math, start: real, looks: seq<Look>, k: nat)
    requires m.pi > 0.0 && k < |looks|
  {
    && looks[k].holding && looks[k].dt >= 0.0
    && Abs(Wrap(m.pi, PhiBefore(start, looks, k) - looks[k].phi)) <= HoldLimit(m, looks[k].dt)
  }

  /** Through a whole rest period whose every drift its slew allows, from a last free sample at
      heading `start`, the output heading stays what it was there. */
  lemma {:induction false} RestHoldsHeading(m: Math, s: Servo, start: real, looks: seq<Look>)
    requires m.pi > 0.0 && Congruent(m.pi, s.ref, Psi(s, start))
    requires forall k :: 0 <= k < |looks| ==> SlowRest(m, start, looks, k)
    ensures ServoAfter(m, s, looks).ref == s.ref
    ensures Congruent(m.pi, s.ref, Psi(ServoAfter(m, s, looks), PhiBefore(start, looks, |looks|)))
    decreases |looks|
  {
    hide Wrap, HoldLimit, Congruent, Psi, ServoStep;
    if looks != [] {
      var n := |looks| - 1;
      assert forall k :: 0 <= k < n ==> SlowRest(m, start, looks, k) ==> SlowRest(m, start, looks[..n], k);
      RestHoldsHeading(m, s, start, looks[..n]);
      assert SlowRest(m, start, looks, n);
      HeldStep(m, ServoAfter(m, s, looks[..n]), PhiBefore(start, looks, n), looks[n].phi, looks[n].dt);
    }
  }

  /** How far the output is from where the servo holds it. */
  function Off(m: Math, s: Servo, phi: real): (rad: real)
    requires m.pi > 0.0
  {
    Abs(Wrap(m.pi, s.ref - Wrap(m.pi, s.hold + phi)))
  }

  /** A resting sample brings the output nearer by exactly what the slew allows, or all the way. */
  lemma ServoCloses(m: Math, s: Servo, phi: real, dt: real)
    requires m.pi > 0.0 && dt >= 0.0
    ensures var off, slew := Off(m, s, phi), HoldLimit(m, dt);
      && 0.0 <= off <= m.pi && slew >= 0.0
      && ServoStep(m, s, true, phi, dt).ref == s.ref
      && Off(m, ServoStep(m, s, true, phi, dt), phi) == if off <= slew then 0.0 else off - slew
  {
    hide Wrap, HoldLimit, Congruent;
    HoldLimitFacts(m, dt, 0.0);
    var slew, out := HoldLimit(m, dt), Wrap(m.pi, s.hold + phi);
    var off := Wrap(m.pi, s.ref - out);
    WrapRange(m.pi, s.hold + phi);
    WrapRange(m.pi, s.ref - out);
    var err := Limited(off, slew);
    var hold := Wrap(m.pi, s.hold + err);
    WrapRange(m.pi, s.hold + err);
    WrapRange(m.pi, hold + phi);
    LeftOff(m.pi, s.ref, s.hold, phi, out, off, err, hold, Wrap(m.pi, hold + phi));
    WrapSame(m.pi, s.ref - Wrap(m.pi, hold + phi), off - err);
    WrapRange(m.pi, off - err);
  }

  lemma LeftOff(pi: real, ref: real, hold: real, phi: real, out: real, off: real, err: real, moved: real,
                after: real)
    requires Congruent(pi, out, hold + phi) && Congruent(pi, off, ref - out)
    requires Congruent(pi, moved, hold + err) && Congruent(pi, after, moved + phi)
    ensures Congruent(pi, ref - after, off - err)
  {
    hide Congruent;
    CongruentSelf(pi, phi);
    CongruentSelf(pi, ref);
    CongruentSelf(pi, err);
    CongruentSum(pi, moved, hold + err, phi, phi);
    CongruentChain(pi, after, moved + phi, hold + err + phi);
    CongruentSum(pi, ref, ref, after, hold + err + phi);
    CongruentSum(pi, ref, ref, out, hold + phi);
    CongruentChain(pi, off, ref - out, ref - (hold + phi));
    CongruentSum(pi, off, ref - (hold + phi), err, err);
    assert ref - (hold + phi) - err == ref - (hold + err + phi);
    CongruentBack(pi, off - err, ref - (hold + err + phi));
    CongruentChain(pi, ref - after, ref - (hold + err + phi), off - err);
  }

  /** So over a rest the output comes back: with the estimate's heading standing still, its distance
      shrinks at 0.1 deg/s of rest until it is nothing. */
  lemma {:induction false} HoldReturns(m: Math, s: Servo, phi: real, looks: seq<Look>)
    requires m.pi > 0.0
    requires forall k :: 0 <= k < |looks| ==> looks[k].holding && looks[k].phi == phi && looks[k].dt >= 0.0
    ensures var off, slew := Off(m, s, phi), HoldLimit(m, RestTime(looks));
      && slew >= 0.0 && ServoAfter(m, s, looks).ref == s.ref
      && Off(m, ServoAfter(m, s, looks), phi) == if off <= slew then 0.0 else off - slew
    decreases |looks|
  {
    hide HoldLimit, Off, ServoStep;
    HoldLimitFacts(m, 0.0, 0.0);
    ServoCloses(m, s, phi, 0.0);
    if looks != [] {
      var n := |looks| - 1;
      HoldReturns(m, s, phi, looks[..n]);
      HoldLimitFacts(m, RestTime(looks[..n]), looks[n].dt);
      ServoCloses(m, ServoAfter(m, s, looks[..n]), phi, looks[n].dt);
    }
  }

  /** A free sample leaves the reference on the output heading, and the hold alone. */
  lemma FreeStep(m: Math, s: Servo, phi: real, dt: real)
    requires m.pi > 0.0
    ensures ServoStep(m, s, false, phi, dt).hold == s.hold
    ensures Congruent(m.pi, ServoStep(m, s, false, phi, dt).ref, Psi(ServoStep(m, s, false, phi, dt), phi))
  {
    hide Wrap, Congruent;
    WrapRange(m.pi, s.hold + phi);
  }

  /** All the corrections of a run, and the time it rested. */
  function Corrected(m: Math, s: Servo, looks: seq<Look>): (sum: real)
    requires m.pi > 0.0
    decreases |looks|
  {
    if looks == [] then 0.0
    else
      var n := |looks| - 1;
      Corrected(m, s, looks[..n]) +
      if looks[n].holding then Correction(m, ServoAfter(m, s, looks[..n]), looks[n].phi, looks[n].dt) else 0.0
  }

  function RestTime(looks: seq<Look>): (t: real)
    decreases |looks|
  {
    if looks == [] then 0.0
    else RestTime(looks[..|looks| - 1]) + if looks[|looks| - 1].holding then looks[|looks| - 1].dt else 0.0
  }

  /** On every run, whatever the headings, the hold has moved by its corrections, modulo a turn,
      and they add up to at most 0.1 deg/s of the time at rest. */
  lemma {:induction false} HoldCreeps(m: Math, s: Servo, looks: seq<Look>)
    requires m.pi > 0.0 && forall k :: 0 <= k < |looks| ==> looks[k].dt >= 0.0
    ensures Congruent(m.pi, ServoAfter(m, s, looks).hold, s.hold + Corrected(m, s, looks))
    ensures Abs(Corrected(m, s, looks)) <= HoldLimit(m, RestTime(looks))
    ensures (forall k :: 0 <= k < |looks| ==> !looks[k].holding) ==> ServoAfter(m, s, looks).hold == s.hold
    decreases |looks|
  {
    hide Wrap, HoldLimit, Congruent, Correction;
    HoldLimitFacts(m, 0.0, 0.0);
    CongruentSelf(m.pi, s.hold);
    if looks != [] {
      var n := |looks| - 1;
      var before, look := looks[..n], looks[n];
      HoldCreeps(m, s, before);
      HoldLimitFacts(m, RestTime(before), look.dt);
      if look.holding {
        CorrectionStep(m, ServoAfter(m, s, before), look.phi, look.dt,
                       s.hold + Corrected(m, s, before));
      }
    }
  }

  lemma CorrectionStep(m: Math, s: Servo, phi: real, dt: real, at: real)
    requires m.pi > 0.0 && dt >= 0.0 && Congruent(m.pi, s.hold, at)
    ensures Abs(Correction(m, s, phi, dt)) <= HoldLimit(m, dt)
    ensures Congruent(m.pi, ServoStep(m, s, true, phi, dt).hold, at + Correction(m, s, phi, dt))
  {
    hide Wrap, HoldLimit, Congruent;
    HoldLimitFacts(m, dt, 0.0);
    var err := Correction(m, s, phi, dt);
    LimitedFacts(Wrap(m.pi, s.ref - Wrap(m.pi, s.hold + phi)), HoldLimit(m, dt));
    WrapRange(m.pi, s.hold + err);
    CongruentSelf(m.pi, err);
    CongruentSum(m.pi, s.hold, at, err, err);
    CongruentChain(m.pi, Wrap(m.pi, s.hold + err), s.hold + err, at + err);
  }

  /** The samples of a run without resets, as the servo saw them. */
  function LooksOf(m: Math, nominal: real, s: State, events: seq<Event>): (looks: seq<Look>)
    requires m.pi > 0.0 && nominal > 0.0
    ensures forall k :: 0 <= k < |looks| ==> looks[k].dt >= 0.0
    decreases |events|
  {
    if events == [] then []
    else
      var before, e := events[..|events| - 1], events[|events| - 1];
      var t := Run(m, nominal, s, before);
      LooksOf(m, nominal, s, before) +
      if e.Update? then
        [Look(Step(m, nominal, t, e).gate.rest && !t.reseed, Phi(m, e.sample.quat),
              StepDt(nominal, t.clock, e.sample.t))]
      else []
  }

  /** The machine's servo is the servo of its samples. */
  lemma {:induction false} RunServo(m: Math, nominal: real, s: State, events: seq<Event>)
    requires m.pi > 0.0 && nominal > 0.0 && Reset !in events
    ensures Run(m, nominal, s, events).servo == ServoAfter(m, s.servo, LooksOf(m, nominal, s, events))
    decreases |events|
  {
    hide BiasStep, GateStep, ServoStep, Phi, StepDt, TurnOf;
    if events != [] {
      var before, e := events[..|events| - 1], events[|events| - 1];
      RunServo(m, nominal, s, before);
      var looks, all := LooksOf(m, nominal, s, before), LooksOf(m, nominal, s, events);
      assert e in events;
      if e.Update? {
        assert all[..|looks|] == looks;
      } else {
        assert all == looks;
      }
    }
  }

  /** The whole machine: after a free sample at heading `start`, for as long as every sample
      rests with a drift its slew allows, the output heading is what it was. */
  lemma HeadingHeld(m: Math, nominal: real, s: State, o: Sample, events: seq<Event>)
    requires m.pi > 0.0 && nominal > 0.0 && Reset !in events
    requires !Updated(m, nominal, s, o).gate.rest || s.reseed
    requires var looks := LooksOf(m, nominal, Updated(m, nominal, s, o), events);
      forall k :: 0 <= k < |looks| ==> SlowRest(m, Phi(m, o.quat), looks, k)
    ensures var free := Updated(m, nominal, s, o);
      var looks := LooksOf(m, nominal, free, events);
      Congruent(m.pi, Psi(Run(m, nominal, free, events).servo, PhiBefore(Phi(m, o.quat), looks, |looks|)),
                Psi(free.servo, Phi(m, o.quat)))
  {
    hide Updated, LooksOf, ServoStep, SlowRest, Psi, Phi, StepDt, Congruent, Run;
    var free, start := Updated(m, nominal, s, o), Phi(m, o.quat);
    var looks := LooksOf(m, nominal, free, events);
    FreeUpdate(m, nominal, s, o);
    FreeStep(m, s.servo, start, StepDt(nominal, s.clock, o.t));
    RunServo(m, nominal, free, events);
    RestHoldsHeading(m, free.servo, start, looks);
    var after := Psi(Run(m, nominal, free, events).servo, PhiBefore(start, looks, |looks|));
    CongruentBack(m.pi, free.servo.ref, after);
    CongruentChain(m.pi, after, free.servo.ref, Psi(free.servo, start));
  }

  lemma FreeUpdate(m: Math, nominal: real, s: State, o: Sample)
    requires m.pi > 0.0 && nominal > 0.0
    requires !Updated(m, nominal, s, o).gate.rest || s.reseed
    ensures Updated(m, nominal, s, o).servo ==
            ServoStep(m, s.servo, false, Phi(m, o.quat), StepDt(nominal, s.clock, o.t))
  {
    hide ServoStep, Phi, StepDt, GateStep, BiasStep, TurnOf;
  }

  // ---- what the host sees -----------------------------------------------------------------------

  /** Both sides of the link agree that the pose has a heading. */
  predicate Headed(q: Quat) {
    Unit(q) && Twist2(q) > TINY && !(Abs(q.w) < 0.000001 && Abs(q.z) < 0.000001)
  }

  /** The heading of the quaternion sent on is hold plus estimate. */
  lemma OutputHeading(m: Math, hold: real, q: Quat)
    requires Lawful(m) && Headed(q)
    ensures m.pi > 0.0 && Congruent(m.pi, HeadingAngle(m, Output(m, hold, q)), hold + Phi(m, q))
    ensures GravityBody(Output(m, hold, q)) == GravityBody(q)
  {
    hide Lawful, Multiply, Wrap, Congruent, GravityBody, Norm2, YawQuat;
    PiAt(m);
    NormalizedUnit(m, q);
    assert Phi(m, q) == HeadingAngle(m, q);
    hide HeadingAngle, Phi;
    if hold == 0.0 {
      CongruentSelf(m.pi, Phi(m, q));
    } else {
      var y := YawQuat(m, hold);
      YawQuatAngle(m, hold);
      YawKeeps(y, q);
      NormalizedUnit(m, Multiply(y, q));
      GravityYawBlind(y, q);
      YawAdds(m, y, q);
      CongruentSelf(m.pi, Phi(m, q));
      CongruentSum(m.pi, HeadingAngle(m, y), hold, Phi(m, q), Phi(m, q));
      CongruentChain(m.pi, HeadingAngle(m, Multiply(y, q)), HeadingAngle(m, y) + Phi(m, q), hold + Phi(m, q));
    }
  }

  /** What the host sees of a rest period: after a free sample, for as long as every sample rests
      with a drift its slew allows, each quaternion sent on has the heading of the free one, and the
      tilt of its own estimate. */
  lemma SentHeadingHeld(m: Math, nominal: real, s: State, o: Sample, events: seq<Event>, last: Sample)
    requires Lawful(m) && m.pi > 0.0 && nominal > 0.0 && Reset !in events
    requires !Updated(m, nominal, s, o).gate.rest || s.reseed
    requires var looks := LooksOf(m, nominal, Updated(m, nominal, s, o), events + [Update(last)]);
      forall k :: 0 <= k < |looks| ==> SlowRest(m, Phi(m, o.quat), looks, k)
    requires Headed(o.quat) && Headed(last.quat)
    ensures var free := Updated(m, nominal, s, o);
      var end := Run(m, nominal, free, events + [Update(last)]);
      var sent := Output(m, end.servo.hold, last.quat);
      && Congruent(m.pi, HeadingAngle(m, sent), HeadingAngle(m, Output(m, free.servo.hold, o.quat)))
      && GravityBody(sent) == GravityBody(last.quat)
  {
    hide Lawful, Headed, Updated, Run, LooksOf, SlowRest, Phi, Output, HeadingAngle, Congruent, GravityBody;
    var free, start, all := Updated(m, nominal, s, o), Phi(m, o.quat), events + [Update(last)];
    var looks, end := LooksOf(m, nominal, free, all), Run(m, nominal, free, all);
    LastLook(m, nominal, free, events, last);
    HeadingHeld(m, nominal, s, o, all);
    OutputHeading(m, free.servo.hold, o.quat);
    OutputHeading(m, end.servo.hold, last.quat);
    var first := HeadingAngle(m, Output(m, free.servo.hold, o.quat));
    var sent := HeadingAngle(m, Output(m, end.servo.hold, last.quat));
    CongruentChain(m.pi, sent, Psi(end.servo, Phi(m, last.quat)), Psi(free.servo, start));
    CongruentBack(m.pi, first, Psi(free.servo, start));
    CongruentChain(m.pi, sent, Psi(free.servo, start), first);
  }

  lemma LastLook(m: Math, nominal: real, s: State, events: seq<Event>, last: Sample)
    requires m.pi > 0.0 && nominal > 0.0
    ensures var looks := LooksOf(m, nominal, s, events + [Update(last)]);
      looks != [] && looks[|looks| - 1].phi == Phi(m, last.quat)
  {
    hide Step, Run, Phi, StepDt;
    var all := events + [Update(last)];
    assert all[..|all| - 1] == events && all[|all| - 1] == Update(last);
  }
}
