/** host/libheadtracker/src/stabilizer.cpp: the per-tracker update step, with wear detection,
    tap handling, auto-level and auto-center around the Recenterer. Floats are reals. The
    snapshot this step publishes is the subject of module Seqlock. */
module Stabilizer {
  import opened Wire
  import opened Angles
  import opened Orientation

  datatype LevelConfig = LevelConfig(enabled: bool, tau: real, warmup: real, maxSlewDeg: real,
                                     maxTiltDeg: real, rejectRateDeg: real)
  datatype CenterConfig = CenterConfig(enabled: bool, tauMean: real, tauCenter: real,
                                       maxSlewDeg: real, minResultant: real)
  datatype WearConfig = WearConfig(window: real, aliveMinDeg: real, wornHold: real, offHold: real)
  datatype TapConfig = TapConfig(recenters: bool, refractory: real, minWorn: real,
                                 settleMaxDeg: real, settleTimeout: real)
  datatype Config = Config(level: LevelConfig, center: CenterConfig, wear: WearConfig, tap: TapConfig)

  datatype Clock = Clock(haveT: bool, lastT: int)
  datatype Tap = Tap(prev: bool, seeded: bool, refractoryLeft: real, settleLeft: real, taps: nat)
  datatype Wear = Wear(gEma: Vec3, init: bool, dev2: real, wornTime: real, stillTime: real,
                       worn: bool, stable: real)
  datatype Level = Level(uAcc: Vec3, init: bool, wornTotal: real, ready: bool, updates: nat)
  datatype Center = Center(z: Complex, warm: real)

  datatype State = State(clock: Clock, tap: Tap, frame: Frame, wear: Wear, prev: Option<Quat>,
                         level: Level, center: Center, dropped: nat, out: Quat)

  const ZERO := Vec3(0.0, 0.0, 0.0)
  const START := State(Clock(false, 0), Tap(false, false, 0.0, -1.0, 0), RAW,
                       Wear(ZERO, false, 0.0, 0.0, 0.0, false, 0.0), None,
                       Level(ZERO, false, 0.0, false, 0), Center(Complex(0.0, 0.0), 0.0), 0, IDENTITY)

  /** Requests other threads left since the previous sample. */
  datatype Requests = Requests(clear: bool, boresight: bool, recenter: bool)

  /** One orientation message; the quaternion is absent when a component is not finite. */
  datatype Sample = Sample(q: Option<Quat>, t: int, tap: bool, requests: Requests)

  // ---- the pieces of one update ---------------------------------------------------------------

  /** The most that a rate limit in degrees per second lets pass in one step. */
  function Slew(m: Math, maxDeg: real, dt: real): (rad: real) {
    Rad(m, maxDeg) * dt
  }

  /** As much of an amount as the interval is of the time constant. */
  function Portion(x: real, dt: real, tau: real): (p: real)
    requires tau != 0.0
  {
    x * dt / tau
  }

  /** The share of an error that leaks away in one step. Without a time constant the quotient is
      infinite, for which some value beyond the cap stands. */
  function Leak(err: real, tau: real, dt: real, cap: real): (step: real) {
    if tau != 0.0 then Portion(err, dt, tau)
    else if err > 0.0 then Abs(cap) + 1.0
    else if err < 0.0 then -Abs(cap) - 1.0
    else 0.0
  }

  /** The weight of a new value in an exponential average. */
  function Weight(tau: real, dt: real): (a: real) {
    if tau + dt == 0.0 then 0.0 else dt / (tau + dt)
  }

  function Blend(old0: real, new0: real, a: real): (x: real) {
    old0 + a * (new0 - old0)
  }

  function BlendVec(u: Vec3, v: Vec3, a: real): (w: Vec3) {
    Vec3(Blend(u.x, v.x, a), Blend(u.y, v.y, a), Blend(u.z, v.z, a))
  }

  function VecNorm(m: Math, v: Vec3): (n: real) {
    m.root(Size2(v))
  }

  function Dotted(a: Vec3, b: Vec3): (d: real) {
    a.x * b.x + a.y * b.y + a.z * b.z
  }

  function Crossed(a: Vec3, b: Vec3): (c: Vec3) {
    Vec3(a.y * b.z - a.z * b.y, a.z * b.x - a.x * b.z, a.x * b.y - a.y * b.x)
  }

  function VecAngle(m: Math, a: Vec3, b: Vec3): (rad: real) {
    var na, nb := VecNorm(m, a), VecNorm(m, b);
    if na < 0.000000001 || nb < 0.000000001 then 0.0
    else
      var n := Product(na, nb);
      ProductSign(na, nb);
      m.atan2(VecNorm(m, Crossed(a, b)) / n, Dotted(a, b) / n)
  }

  function QuatAngle(m: Math, q: Quat): (rad: real) {
    2.0 * m.acos(if Abs(q.w) > 1.0 then 1.0 else Abs(q.w))
  }

  function Dot4(p: Quat, q: Quat): (d: real) {
    p.w * q.w + p.x * q.x + p.y * q.y + p.z * q.z
  }

  /** The sign of `b` that is nearer to `a`. */
  function ShortWay(a: Quat, b: Quat): (to: Quat) {
    if Dot4(a, b) < 0.0 then Scale(b, -1.0) else b
  }

  function Between(a: Quat, b: Quat, t: real): (q: Quat) {
    Quat(Blend(a.w, b.w, t), Blend(a.x, b.x, t), Blend(a.y, b.y, t), Blend(a.z, b.z, t))
  }

  /** At most `maxAngle` from `a` toward `b`, the short way. */
  function QuatStep(m: Math, a: Quat, b: Quat, maxAngle: real): (q: Quat) {
    var to := ShortWay(a, b);
    var ang := QuatAngle(m, Multiply(Conjugate(a), to));
    if ang <= maxAngle || ang == 0.0 then to else Normalized(m, Between(a, to, maxAngle / ang))
  }

  /** Seconds since the previous sample on a wrapping microsecond counter; zero after a gap. */
  function Dt(clock: Clock, t: int): (dt: real)
    ensures 0.0 <= dt <= 0.1
  {
    if !clock.haveT then 0.0
    else
      var dt := ((t - clock.lastT) % 0x1_0000_0000) as real * 0.000001;
      if dt > 0.1 then 0.0 else dt
  }

  function TapStep(cfg: TapConfig, tap: Tap, wear: Wear, now: bool, dt: real): (next: Tap) {
    var prev := if tap.seeded then tap.prev else now;
    var left := if tap.refractoryLeft > 0.0 then tap.refractoryLeft - dt else tap.refractoryLeft;
    if now && !prev && left <= 0.0 then
      Tap(now, true, cfg.refractory,
          if cfg.recenters && wear.worn && wear.stable >= cfg.minWorn then cfg.settleTimeout else tap.settleLeft,
          tap.taps + 1)
    else Tap(now, true, left, tap.settleLeft, tap.taps)
  }

  /** The mean restarts at the present heading of the tared pose. */
  function Seeded(m: Math, f: Frame, q: Quat): (z: Complex)
    requires m.pi > 0.0
  {
    Direction(m, HeadingAngle(m, Multiply(q, f.bore)))
  }

  function FrameAsked(m: Math, f: Frame, q: Quat, r: Requests): (g: Frame) {
    var cleared := if r.clear then RAW else f;
    var tared := if r.boresight then Boresighted(m, q) else cleared;
    if r.recenter then Recentred(m, tared, q) else tared
  }

  /** Every request reseeds, at the frame it leaves; a recenter leaves the tare it finds. */
  function MeanAsked(m: Math, f: Frame, z: Complex, q: Quat, r: Requests): (w: Complex)
    requires m.pi > 0.0
  {
    if r.clear || r.boresight || r.recenter then Seeded(m, FrameAsked(m, f, q, r), q) else z
  }

  /** Wear detection sees nothing but body-frame gravity. */
  function WearStep(m: Math, cfg: WearConfig, w: Wear, dt: real, g: Vec3): (next: Wear) {
    if dt <= 0.0 then w
    else
      var gEma := if w.init then BlendVec(w.gEma, g, Weight(0.5, dt)) else g;
      var dev := VecAngle(m, g, gEma);
      var jolt := dev > Rad(m, 20.0);
      var worn0 := w.worn && !jolt;
      var wornTime0 := if jolt then 0.0 else w.wornTime;
      var stillTime0 := if jolt then 0.0 else w.stillTime;
      var dev2 := Blend(w.dev2, Product(dev, dev), Weight(cfg.window, dt));
      var alive := m.root(dev2) > Rad(m, cfg.aliveMinDeg);
      var wornTime := if alive then wornTime0 + dt else 0.0;
      var stillTime := if alive then 0.0 else stillTime0 + dt;
      var worn := if alive then worn0 || wornTime >= cfg.wornHold else worn0 && stillTime < cfg.offHold;
      Wear(gEma, true, dev2, wornTime, stillTime, worn, if worn then w.stable + dt else 0.0)
  }

  function Rate(m: Math, prev: Option<Quat>, q: Quat, dt: real): (rate: real) {
    if prev.None? || dt <= 0.0 then 0.0 else QuatAngle(m, Multiply(Conjugate(prev.value), q)) / dt
  }

  /** A pending tap recenter applies once the head has settled, or the wait is over. */
  predicate Settles(m: Math, cfg: TapConfig, tap: Tap, rate: real, dt: real) {
    tap.settleLeft >= 0.0 && (rate < Rad(m, cfg.settleMaxDeg) || tap.settleLeft - dt <= 0.0)
  }

  function TapSettled(m: Math, cfg: TapConfig, tap: Tap, rate: real, dt: real): (next: Tap) {
    if Settles(m, cfg, tap, rate, dt) then tap.(settleLeft := -1.0)
    else if tap.settleLeft >= 0.0 then tap.(settleLeft := tap.settleLeft - dt)
    else tap
  }

  predicate Levels(m: Math, cfg: LevelConfig, worn: bool, rate: real, dt: real) {
    cfg.enabled && worn && dt > 0.0 && rate < Rad(m, cfg.rejectRateDeg)
  }

  /** The long-term gravity average, as auto-level keeps it. */
  function Averaged(m: Math, cfg: LevelConfig, l: Level, g: Vec3, dt: real): (next: Level) {
    l.(uAcc := if l.init then BlendVec(l.uAcc, g, Weight(cfg.tau, dt)) else g,
       init := true, wornTotal := l.wornTotal + dt)
  }

  /** The tilt one auto-level step moves to, if it moves. */
  function NextTilt(m: Math, cfg: LevelConfig, l: Level, f: Frame, dt: real): (tilt: Option<Quat>) {
    var target := Conjugate(ShortestArcToDown(m, l.uAcc));
    var next := QuatStep(m, f.bore, target, Slew(m, cfg.maxSlewDeg, dt));
    if l.wornTotal >= cfg.warmup && VecNorm(m, l.uAcc) > 0.5
       && QuatAngle(m, target) < Rad(m, cfg.maxTiltDeg)
       && QuatAngle(m, Multiply(Conjugate(f.bore), next)) > 0.0000001
    then Some(next) else None
  }

  function FrameLeveled(m: Math, f: Frame, tilt: Option<Quat>, q: Quat): (g: Frame)
    requires m.pi > 0.0
  {
    if tilt.Some? then TiltSet(m, f, tilt.value, q) else f
  }

  function MeanLeveled(m: Math, f: Frame, tilt: Option<Quat>, z: Complex, q: Quat): (w: Complex)
    requires m.pi > 0.0
  {
    if tilt.Some? then CoRotated(m, z, TiltShift(m, f, tilt.value, q)) else z
  }

  function CenterMean(m: Math, cfg: CenterConfig, c: Center, f: Frame, q: Quat, dt: real): (next: Center)
    requires m.pi > 0.0
  {
    if dt <= 0.0 then c
    else
      var d := Seeded(m, f, q);
      var a := Weight(cfg.tauMean, dt);
      Center(Complex(Blend(c.z.re, d.re, a), Blend(c.z.im, d.im, a)), c.warm + dt)
  }

  function Clamp(x: real, cap: real): (y: real) {
    if x > cap then cap else if x < -cap then -cap else x
  }

  /** Auto-center leaks the yaw reference toward the mean heading. */
  function FrameCentered(m: Math, cfg: CenterConfig, c: Center, f: Frame, worn: bool, dt: real): (g: Frame)
    requires m.pi > 0.0
  {
    if dt > 0.0 && cfg.enabled && worn && c.warm >= cfg.tauMean
       && m.root(Length2(c.z)) > cfg.minResultant
    then
      var cap := Slew(m, cfg.maxSlewDeg, dt);
      var step := Clamp(Leak(CenteringError(m, c.z, f), cfg.tauCenter, dt, cap), cap);
      f.(yaw := YawQuat(m, Wrap(m.pi, YawAngle(m, f) + step)))
    else f
  }

  /** One update with a finite quaternion. */
  function Updated(m: Math, cfg: Config, s: State, o: Sample): (next: State)
    requires m.pi > 0.0 && o.q.Some?
  {
    var q := Normalized(m, o.q.value);
    var dt := Dt(s.clock, o.t);
    var tap := TapStep(cfg.tap, s.tap, s.wear, o.tap, dt);
    var f1 := FrameAsked(m, s.frame, q, o.requests);
    var z1 := MeanAsked(m, s.frame, s.center.z, q, o.requests);
    var wear := WearStep(m, cfg.wear, s.wear, dt, GravityBody(q));
    var rate := Rate(m, s.prev, q, dt);
    var settles := Requests(false, false, Settles(m, cfg.tap, tap, rate, dt));
    var f2 := FrameAsked(m, f1, q, settles);
    var z2 := MeanAsked(m, f1, z1, q, settles);
    var level1 := if o.requests.boresight then s.level.(init := false) else s.level;
    var levels := Levels(m, cfg.level, wear.worn, rate, dt);
    var level2 := if levels then Averaged(m, cfg.level, level1, GravityBody(q), dt) else level1;
    var tilt := if levels then NextTilt(m, cfg.level, level2, f2, dt) else None;
    var f3 := FrameLeveled(m, f2, tilt, q);
    var z3 := MeanLeveled(m, f2, tilt, z2, q);
    var level3 := if tilt.Some? then level2.(ready := true, updates := level2.updates + 1) else level2;
    var center := CenterMean(m, cfg.center, s.center.(z := z3), f3, q, dt);
    var f4 := FrameCentered(m, cfg.center, center, f3, wear.worn, dt);
    State(Clock(true, o.t), TapSettled(m, cfg.tap, tap, rate, dt), f4, wear, Some(q),
          level3, center, s.dropped, Applied(m, f4, q))
  }

  /** One update; a sample that is not finite changes nothing but a counter. */
  function Step(m: Math, cfg: Config, s: State, o: Sample): (next: State)
    requires m.pi > 0.0
  {
    if o.q.None? then s.(dropped := s.dropped + 1) else Updated(m, cfg, s, o)
  }

  function Run(m: Math, cfg: Config, s: State, samples: seq<Sample>): (end: State)
    requires m.pi > 0.0
    decreases |samples|
  {
    if samples == [] then s
    else Step(m, cfg, Run(m, cfg, s, samples[..|samples| - 1]), samples[|samples| - 1])
  }

  class Stabilizer {
    const m: Math
    const cfg: Config
    const ref: Recenterer
    var clock: Clock
    var tap: Tap
    var wear: Wear
    var prev: Option<Quat>
    var level: Level
    var center: Center
    var dropped: nat
    var out: Quat

    ghost predicate Valid()
      reads this, ref
    {
      ref.m == m && m.pi > 0.0
    }

    ghost function View(): (s: State)
      reads this, ref
    {
      State(clock, tap, ref.View(), wear, prev, level, center, dropped, out)
    }

    constructor (lib: Math, config: Config)
      requires lib.pi > 0.0
      ensures Valid() && View() == START && m == lib && cfg == config
      ensures fresh(ref)
    {
      m, cfg := lib, config;
      ref := new Recenterer(lib);
      clock, tap := Clock(false, 0), Tap(false, false, 0.0, -1.0, 0);
      wear, prev := Wear(ZERO, false, 0.0, 0.0, 0.0, false, 0.0), None;
      level, center := Level(ZERO, false, 0.0, false, 0), Center(Complex(0.0, 0.0), 0.0);
      dropped, out := 0, IDENTITY;
    }

    /** Serves the requests in order, each on the frame the one before left. */
    method Serve(q: Quat, r: Requests)
      requires Valid()
      modifies this`center, this`level, ref
      ensures Valid() && ref.View() == FrameAsked(m, old(ref.View()), q, r)
      ensures center == old(center).(z := MeanAsked(m, old(ref.View()), old(center.z), q, r))
      ensures level == if r.boresight then old(level).(init := false) else old(level)
    {
      hide Boresighted, Recentred, HeadingAngle, Multiply, Direction;
      if r.clear {
        ref.Reset();
        ReseedCenter(q);
      }
      if r.boresight {
        ref.Boresight(q);
        level := level.(init := false);
        ReseedCenter(q);
      }
      if r.recenter {
        ref.Recenter(q);
        assert ref.boreInv == FrameAsked(m, old(ref.View()), q, r).bore;
        ReseedCenter(q);
      }
    }

    method ReseedCenter(q: Quat)
      requires Valid()
      modifies this`center
      ensures center == old(center).(z := Seeded(m, ref.View(), q))
    {
      var phi := HeadingAngle(m, Multiply(q, ref.boreInv));
      center := center.(z := Complex(m.cos(phi), m.sin(phi)));
    }

    method AutoLevel(q: Quat, dt: real)
      requires Valid()
      modifies this`center, this`level, ref
      ensures Valid()
      ensures var l := Averaged(m, cfg.level, old(level), GravityBody(q), dt);
        var tilt := NextTilt(m, cfg.level, l, old(ref.View()), dt);
        && ref.View() == FrameLeveled(m, old(ref.View()), tilt, q)
        && center == old(center).(z := MeanLeveled(m, old(ref.View()), tilt, old(center.z), q))
        && level == if tilt.Some? then l.(ready := true, updates := l.updates + 1) else l
    {
      hide GravityBody, ShortestArcToDown, QuatAngle, QuatStep, VecNorm, TiltSet, TiltShift, Rad, Slew,
        Averaged, Multiply;
      level := Averaged(m, cfg.level, level, GravityBody(q), dt);
      if level.wornTotal >= cfg.level.warmup && VecNorm(m, level.uAcc) > 0.5 {
        var target := Conjugate(ShortestArcToDown(m, level.uAcc));
        if QuatAngle(m, target) < Rad(m, cfg.level.maxTiltDeg) {
          var cur := ref.boreInv;
          var next := QuatStep(m, cur, target, Slew(m, cfg.level.maxSlewDeg, dt));
          if QuatAngle(m, Multiply(Conjugate(cur), next)) > 0.0000001 {
            var delta := ref.SetTilt(next, q);
            var c, s := m.cos(delta), m.sin(delta);
            var re := center.z.re * c - center.z.im * s;
            center := center.(z := Complex(re, center.z.re * s + center.z.im * c));
            assert center.z == CoRotated(m, old(center.z), delta);
            level := level.(updates := level.updates + 1, ready := true);
          }
        }
      }
    }

    method AutoCenter(q: Quat, dt: real)
      requires Valid()
      modifies this`center, ref
      ensures Valid()
      ensures center == CenterMean(m, cfg.center, old(center), old(ref.View()), q, dt)
      ensures ref.View() == FrameCentered(m, cfg.center, center, old(ref.View()), wear.worn, dt)
    {
      hide HeadingAngle, Multiply, Rad, Wrap, YawQuat, Slew, Leak, Clamp, Length2, Weight, Blend;
      if dt > 0.0 {
        var phi := HeadingAngle(m, Multiply(q, ref.boreInv));
        var a := Weight(cfg.center.tauMean, dt);
        center := Center(Complex(Blend(center.z.re, m.cos(phi), a), Blend(center.z.im, m.sin(phi), a)),
                         center.warm + dt);
        if cfg.center.enabled && wear.worn && center.warm >= cfg.center.tauMean
           && m.root(Length2(center.z)) > cfg.center.minResultant {
          var err := WrapPi(m.pi, -m.atan2(center.z.im, center.z.re) - HeadingAngle(m, ref.yawInv));
          var cap := Slew(m, cfg.center.maxSlewDeg, dt);
          var step := Clamp(Leak(err, cfg.center.tauCenter, dt, cap), cap);
          var rad := WrapPi(m.pi, HeadingAngle(m, ref.yawInv) + step);
          ref.SetYawAngle(rad);
        }
      }
    }

    method Update(o: Sample) returns (q: Quat)
      requires Valid()
      modifies this, ref
      ensures Valid() && View() == Step(m, cfg, old(View()), o)
      ensures q == out
    {
      hide Normalized, GravityBody, TapStep, FrameAsked, MeanAsked, WearStep, Averaged, NextTilt,
        TiltSet, TiltShift, CoRotated, CenterMean, FrameCentered, Applied, QuatAngle, Multiply, Dt, Rad;
      if o.q.None? {
        dropped := dropped + 1;
        return out;
      }
      var raw := Normalized(m, o.q.value);
      var dt := Dt(clock, o.t);
      clock := Clock(true, o.t);
      tap := TapStep(cfg.tap, tap, wear, o.tap, dt);
      Serve(raw, o.requests);
      wear := WearStep(m, cfg.wear, wear, dt, GravityBody(raw));
      var rate := Rate(m, prev, raw, dt);
      prev := Some(raw);
      Serve(raw, Requests(false, false, Settles(m, cfg.tap, tap, rate, dt)));
      tap := TapSettled(m, cfg.tap, tap, rate, dt);
      if Levels(m, cfg.level, wear.worn, rate, dt) {
        AutoLevel(raw, dt);
      }
      AutoCenter(raw, dt);
      out := ref.Apply(raw);
      q := out;
    }
  }

  // ---- wear detection is blind to yaw ---------------------------------------------------------

  /** The second sample is the first, turned by some yaw on the world's side, at the same time;
      taps and requests may differ. */
  ghost predicate SameButYaw(a: Sample, b: Sample) {
    && a.t == b.t && a.q.Some? == b.q.Some?
    && (a.q.Some? ==> exists y :: PureYaw(y) && b.q.value == Multiply(y, a.q.value))
  }

  lemma WearOfStep(m: Math, cfg: Config, s: State, o: Sample)
    requires m.pi > 0.0 && o.q.Some?
    ensures Step(m, cfg, s, o).clock == Clock(true, o.t)
    ensures Step(m, cfg, s, o).wear ==
            WearStep(m, cfg.wear, s.wear, Dt(s.clock, o.t), GravityBody(Normalized(m, o.q.value)))
  {
    hide WearStep, GravityBody, Normalized, Dt, Applied, FrameCentered, CenterMean, FrameAsked, MeanAsked;
  }

  /** Two runs whose samples differ by an arbitrary yaw each, on trackers that may differ in
      everything but clock and wear state, agree on the wear state forever. */
  lemma {:induction false} WearYawBlind(m: Math, cfg: Config, other: Config, s: State, t: State,
                                        a: seq<Sample>, b: seq<Sample>)
    requires m.pi > 0.0 && cfg.wear == other.wear
    requires s.clock == t.clock && s.wear == t.wear
    requires |a| == |b| && forall k :: 0 <= k < |a| ==> SameButYaw(a[k], b[k])
    ensures Run(m, cfg, s, a).clock == Run(m, other, t, b).clock
    ensures Run(m, cfg, s, a).wear == Run(m, other, t, b).wear
    decreases |a|
  {
    hide Updated, WearStep, GravityBody, Normalized, Dt, PureYaw, Multiply;
    if a != [] {
      var n := |a| - 1;
      var p, q := a[n], b[n];
      WearYawBlind(m, cfg, other, s, t, a[..n], b[..n]);
      assert SameButYaw(p, q);
      if p.q.Some? {
        var y :| PureYaw(y) && q.q.value == Multiply(y, p.q.value);
        NormalizedYawBlind(m, y, p.q.value);
        WearOfStep(m, cfg, Run(m, cfg, s, a[..n]), p);
        WearOfStep(m, other, Run(m, other, t, b[..n]), q);
      }
    }
  }

  // ---- the reference frame and the mean, over whole runs ---------------------------------------

  lemma QuatStepUnit(m: Math, a: Quat, b: Quat, maxAngle: real)
    requires Lawful(m) && Unit(b)
    ensures Unit(QuatStep(m, a, b, maxAngle))
  {
    hide Lawful, Normalized, Multiply, QuatAngle, ShortWay, Between, Norm2;
    ShortWayUnit(a, b);
    var ang := QuatAngle(m, Multiply(Conjugate(a), ShortWay(a, b)));
    if ang > maxAngle && ang != 0.0 {
      NormalizedUnit(m, Between(a, ShortWay(a, b), maxAngle / ang));
    }
  }

  lemma ShortWayUnit(a: Quat, b: Quat)
    requires Unit(b)
    ensures Unit(ShortWay(a, b))
  {
    NormScales(b, -1.0);
    hide Norm2;
  }

  lemma TiltUnit(m: Math, cfg: LevelConfig, l: Level, f: Frame, dt: real)
    requires Lawful(m)
    ensures NextTilt(m, cfg, l, f, dt).Some? ==> Unit(NextTilt(m, cfg, l, f, dt).value)
  {
    hide Lawful, QuatStep, ShortestArcToDown, QuatAngle, VecNorm, Multiply;
    ShortestArcCarries(m, l.uAcc);
    var target := Conjugate(ShortestArcToDown(m, l.uAcc));
    QuatStepUnit(m, f.bore, target, Slew(m, cfg.maxSlewDeg, dt));
  }

  /** One auto-level step cannot be noticed: neither the output heading of a pose that has one,
      nor the centering error, nor the confidence in the mean moves. */
  lemma LevelingInvisible(m: Math, cfg: LevelConfig, l: Level, f: Frame, z: Complex, q: Quat, dt: real)
    requires Lawful(m) && Sound(f) && Unit(q)
    ensures var tilt := NextTilt(m, cfg, l, f, dt);
      var g, w := FrameLeveled(m, f, tilt, q), MeanLeveled(m, f, tilt, z, q);
      && Sound(g)
      && Length2(w) == Length2(z)
      && (z != Complex(0.0, 0.0) ==> Abs(CenteringError(m, w, g)) == Abs(CenteringError(m, z, f)))
      && (Gimbal(q, f.bore) == Gimbal(q, g.bore) ==>
            Congruent(m.pi, HeadingAngle(m, Applied(m, g, q)), HeadingAngle(m, Applied(m, f, q))))
  {
    hide Lawful, NextTilt, TiltShift, CenteringError, HeadingAngle, Applied, Gimbal, Sound, Unit, CoRotated, Length2;
    PiAt(m);
    var tilt := NextTilt(m, cfg, l, f, dt);
    if tilt.Some? {
      TiltUnit(m, cfg, l, f, dt);
      TiltSound(m, f, tilt.value, q);
      TiltInvisible(m, f, tilt.value, q);
      CoRotates(m, z, TiltShift(m, f, tilt.value, q));
      if z != Complex(0.0, 0.0) {
        CenteringUndisturbed(m, f, z, tilt.value, q);
      }
    } else {
      CongruentSelf(m.pi, HeadingAngle(m, Applied(m, f, q)));
    }
  }

  /** Auto-center turns the output by at most its slew limit, and not at all when it is off. */
  lemma CenteringTurns(m: Math, cfg: CenterConfig, c: Center, f: Frame, worn: bool, dt: real, q: Quat)
    returns (step: real)
    requires Lawful(m) && m.pi > 0.0 && Sound(f) && Unit(q) && !Gimbal(q, f.bore)
    requires dt >= 0.0 && cfg.maxSlewDeg >= 0.0
    ensures Abs(step) <= Slew(m, cfg.maxSlewDeg, dt) && (!cfg.enabled ==> step == 0.0)
    ensures Congruent(m.pi, HeadingAngle(m, Applied(m, FrameCentered(m, cfg, c, f, worn, dt), q)),
                      HeadingAngle(m, Applied(m, f, q)) + step)
  {
    hide Lawful, Sound, Unit, HeadingAngle, YawQuat, Wrap, Length2, Leak, Slew, Argument, Applied, Multiply, Congruent;
    SlewPositive(m, cfg.maxSlewDeg, dt);
    var g := FrameCentered(m, cfg, c, f, worn, dt);
    CorrectedHeading(m, f, q);
    CenteredSound(m, cfg, c, f, worn, dt);
    CorrectedHeading(m, g, q);
    var phi := HeadingAngle(m, Multiply(q, f.bore));
    var before := HeadingAngle(m, Applied(m, f, q));
    CongruentSelf(m.pi, before);
    step := 0.0;
    if g != f {
      var cap := Slew(m, cfg.maxSlewDeg, dt);
      step := Clamp(Leak(CenteringError(m, c.z, f), cfg.tauCenter, dt, cap), cap);
      var yaw := YawAngle(m, f);
      YawQuatAngle(m, Wrap(m.pi, yaw + step));
      WrapRange(m.pi, yaw + step);
      CongruentChain(m.pi, YawAngle(m, g), Wrap(m.pi, yaw + step), yaw + step);
      Turned(m.pi, HeadingAngle(m, Applied(m, g, q)), YawAngle(m, g), before, yaw, phi, step);
    }
  }

  lemma Turned(pi: real, after: real, moved: real, before: real, yaw: real, phi: real, step: real)
    requires Congruent(pi, after, moved + phi) && Congruent(pi, moved, yaw + step)
    requires Congruent(pi, before, yaw + phi)
    ensures Congruent(pi, after, before + step)
  {
    hide Congruent;
    CongruentSelf(pi, phi);
    CongruentSelf(pi, step);
    CongruentSum(pi, moved, yaw + step, phi, phi);
    CongruentChain(pi, after, moved + phi, yaw + step + phi);
    CongruentSum(pi, before, yaw + phi, step, step);
    CongruentBack(pi, before + step, yaw + phi + step);
    assert yaw + phi + step == yaw + step + phi;
    CongruentChain(pi, after, yaw + step + phi, before + step);
  }

  lemma SlewPositive(m: Math, maxDeg: real, dt: real)
    requires m.pi > 0.0 && maxDeg >= 0.0 && dt >= 0.0
    ensures Slew(m, maxDeg, dt) >= 0.0
  {
    var perDeg := m.pi / 180.0;
    ProductSign(maxDeg, perDeg);
    ProductSign(Rad(m, maxDeg), dt);
    assert Rad(m, maxDeg) == Product(maxDeg, perDeg) && Slew(m, maxDeg, dt) == Product(Rad(m, maxDeg), dt);
    hide Product, Rad, Slew;
    if dt == 0.0 {
      ProductSign(dt, Rad(m, maxDeg));
    }
  }

  /** What every reachable state keeps: a unit tare, a pure yaw, and a mean that is a mean. */
  predicate Healthy(s: State) {
    Sound(s.frame) && Length2(s.center.z) <= 1.0
  }

  /** A weighted mean of two points of the unit disc lies in it. */
  lemma BlendInDisc(z: Complex, d: Complex, a: real)
    requires Length2(z) <= 1.0 && Length2(d) == 1.0 && 0.0 <= a <= 1.0
    ensures Length2(Complex(Blend(z.re, d.re, a), Blend(z.im, d.im, a))) <= 1.0
  {
    hide Length2, Dot, Shares, Blend;
    DotBelowOne(z, d);
    BlendSize(z, d, a);
    SharesAtMost(a, Length2(z), Dot(z, d));
  }

  function Dot(z: Complex, d: Complex): (p: real) {
    z.re * d.re + z.im * d.im
  }

  function Shares(a: real, x: real, y: real): (s: real) {
    Product((1.0 - a) * (1.0 - a), x) + Product(2.0 * ((1.0 - a) * a), y) + a * a
  }

  lemma DotBelowOne(z: Complex, d: Complex)
    requires Length2(z) <= 1.0 && Length2(d) == 1.0
    ensures Dot(z, d) <= 1.0
  {
    var gap := Complex(z.re - d.re, z.im - d.im);
    GapSize(z, d);
    hide Length2, Dot;
    NonZero(gap);
  }

  lemma GapSize(z: Complex, d: Complex)
    ensures Length2(Complex(z.re - d.re, z.im - d.im)) == Length2(z) + Length2(d) - 2.0 * Dot(z, d)
  {
  }

  lemma BlendSize(z: Complex, d: Complex, a: real)
    requires Length2(d) == 1.0
    ensures Length2(Complex(Blend(z.re, d.re, a), Blend(z.im, d.im, a))) == Shares(a, Length2(z), Dot(z, d))
  {
    assert Length2(Complex(Blend(z.re, d.re, a), Blend(z.im, d.im, a))) ==
           (1.0 - a) * (1.0 - a) * Length2(z) + 2.0 * ((1.0 - a) * a) * Dot(z, d) + a * a * Length2(d);
  }

  lemma SharesAtMost(a: real, x: real, y: real)
    requires 0.0 <= a <= 1.0 && x <= 1.0 && y <= 1.0
    ensures Shares(a, x, y) <= 1.0
  {
    AtMost(a, a);
    assert (1.0 - a) * a == a - Product(a, a);
    hide Product;
    AtMost((1.0 - a) * (1.0 - a), x);
    AtMost(2.0 * ((1.0 - a) * a), y);
    assert (1.0 - a) * (1.0 - a) + 2.0 * ((1.0 - a) * a) + a * a == 1.0;
  }

  lemma AtMost(k: real, x: real)
    requires k >= 0.0 && x <= 1.0
    ensures Product(k, x) <= k
  {
    assert k * (1.0 - x) >= 0.0;
  }

  lemma AskedHealthy(m: Math, f: Frame, z: Complex, q: Quat, r: Requests)
    requires Lawful(m) && m.pi > 0.0 && Sound(f) && Length2(z) <= 1.0
    ensures Sound(FrameAsked(m, f, q, r)) && Length2(MeanAsked(m, f, z, q, r)) <= 1.0
  {
    hide Lawful, Sound, Length2, Boresighted, Recentred, HeadingAngle, Multiply, Direction;
    StaysSound(m, f, IDENTITY, q);
    var cleared := if r.clear then RAW else f;
    var tared := if r.boresight then Boresighted(m, q) else cleared;
    StaysSound(m, tared, IDENTITY, q);
    var phi := HeadingAngle(m, Multiply(q, FrameAsked(m, f, q, r).bore));
    LawsAt(m, phi, phi);
  }

  lemma WeightFraction(tau: real, dt: real)
    requires tau >= 0.0 && dt >= 0.0
    ensures 0.0 <= Weight(tau, dt) <= 1.0
  {
    var n := tau + dt;
    if n != 0.0 {
      var a := dt / n;
      assert a * n == dt;
      if a < 0.0 { ProductSign(-a, n); }
      if a > 1.0 { ProductSign(a - 1.0, n); }
    }
  }

  lemma CenterHealthy(m: Math, cfg: CenterConfig, c: Center, f: Frame, q: Quat, dt: real)
    requires Lawful(m) && m.pi > 0.0 && cfg.tauMean >= 0.0 && dt >= 0.0 && Length2(c.z) <= 1.0
    ensures Length2(CenterMean(m, cfg, c, f, q, dt).z) <= 1.0
  {
    hide Lawful, Length2, HeadingAngle, Multiply, Direction, Blend, Weight;
    var phi := HeadingAngle(m, Multiply(q, f.bore));
    LawsAt(m, phi, phi);
    WeightFraction(cfg.tauMean, dt);
    BlendInDisc(c.z, Seeded(m, f, q), Weight(cfg.tauMean, dt));
  }

  lemma CenteredSound(m: Math, cfg: CenterConfig, c: Center, f: Frame, worn: bool, dt: real)
    requires Lawful(m) && m.pi > 0.0 && Sound(f)
    ensures Sound(FrameCentered(m, cfg, c, f, worn, dt))
  {
    hide Lawful, HeadingAngle, YawQuat, Wrap, Clamp, Length2, Leak, Slew, Argument, Norm2;
    var cap := Slew(m, cfg.maxSlewDeg, dt);
    var step := Clamp(Leak(CenteringError(m, c.z, f), cfg.tauCenter, dt, cap), cap);
    YawQuatAngle(m, Wrap(m.pi, YawAngle(m, f) + step));
  }

  lemma StepHealthy(m: Math, cfg: Config, s: State, o: Sample)
    requires Lawful(m) && m.pi > 0.0 && cfg.center.tauMean >= 0.0 && Healthy(s)
    ensures Healthy(Step(m, cfg, s, o))
  {
    hide Lawful, Sound, Length2, FrameAsked, MeanAsked, FrameLeveled, MeanLeveled, CenterMean, FrameCentered,
      Applied, WearStep, TapStep, Levels, Settles, Averaged, GravityBody, Normalized, Dt, NextTilt, Rate,
      TapSettled;
    if o.q.Some? {
      var q := Normalized(m, o.q.value);
      NormalizedUnit(m, o.q.value);
      var dt := Dt(s.clock, o.t);
      var tap := TapStep(cfg.tap, s.tap, s.wear, o.tap, dt);
      AskedHealthy(m, s.frame, s.center.z, q, o.requests);
      var f1 := FrameAsked(m, s.frame, q, o.requests);
      var z1 := MeanAsked(m, s.frame, s.center.z, q, o.requests);
      var wear := WearStep(m, cfg.wear, s.wear, dt, GravityBody(q));
      var rate := Rate(m, s.prev, q, dt);
      var settles := Requests(false, false, Settles(m, cfg.tap, tap, rate, dt));
      AskedHealthy(m, f1, z1, q, settles);
      var f2, z2 := FrameAsked(m, f1, q, settles), MeanAsked(m, f1, z1, q, settles);
      var level1 := if o.requests.boresight then s.level.(init := false) else s.level;
      var levels := Levels(m, cfg.level, wear.worn, rate, dt);
      var level2 := if levels then Averaged(m, cfg.level, level1, GravityBody(q), dt) else level1;
      var tilt := if levels then NextTilt(m, cfg.level, level2, f2, dt) else None;
      LeveledHealthy(m, cfg.level, level2, f2, z2, q, dt);
      var f3, z3 := FrameLeveled(m, f2, tilt, q), MeanLeveled(m, f2, tilt, z2, q);
      assert Sound(f3) && Length2(z3) <= 1.0;
      CenterHealthy(m, cfg.center, s.center.(z := z3), f3, q, dt);
      var center := CenterMean(m, cfg.center, s.center.(z := z3), f3, q, dt);
      CenteredSound(m, cfg.center, center, f3, wear.worn, dt);
    }
  }

  lemma LeveledHealthy(m: Math, cfg: LevelConfig, l: Level, f: Frame, z: Complex, q: Quat, dt: real)
    requires Lawful(m) && m.pi > 0.0 && Sound(f) && Length2(z) <= 1.0 && Unit(q)
    ensures FrameLeveled(m, f, None, q) == f && MeanLeveled(m, f, None, z, q) == z
    ensures var tilt := NextTilt(m, cfg, l, f, dt);
      Sound(FrameLeveled(m, f, tilt, q)) && Length2(MeanLeveled(m, f, tilt, z, q)) <= 1.0
  {
    hide Lawful, Sound, Length2, NextTilt, Unit;
    LevelingInvisible(m, cfg, l, f, z, q, dt);
  }

  /** Whatever arrives, the reference stays a rotation pair and the length of the mean, which
      auto-center trusts as its confidence, never exceeds one. */
  lemma {:induction false} RunHealthy(m: Math, cfg: Config, samples: seq<Sample>)
    requires Lawful(m) && m.pi > 0.0 && cfg.center.tauMean >= 0.0
    ensures Healthy(Run(m, cfg, START, samples))
    decreases |samples|
  {
    hide Lawful, Step, Sound, Length2;
    if samples == [] {
      StartHealthy();
    } else {
      RunHealthy(m, cfg, samples[..|samples| - 1]);
      StepHealthy(m, cfg, Run(m, cfg, START, samples[..|samples| - 1]), samples[|samples| - 1]);
    }
  }

  lemma StartHealthy()
    ensures Healthy(START)
  {
  }

  /** A pending tap recenter is due on this sample. */
  predicate SettlesOn(m: Math, cfg: Config, s: State, o: Sample)
    requires o.q.Some?
  {
    var q, dt := Normalized(m, o.q.value), Dt(s.clock, o.t);
    Settles(m, cfg.tap, TapStep(cfg.tap, s.tap, s.wear, o.tap, dt), Rate(m, s.prev, q, dt), dt)
  }

  /** The frame that the requests and a due tap recenter leave. */
  function Asked(m: Math, cfg: Config, s: State, o: Sample): (f: Frame)
    requires o.q.Some?
  {
    var q := Normalized(m, o.q.value);
    FrameAsked(m, FrameAsked(m, s.frame, q, o.requests), q, Requests(false, false, SettlesOn(m, cfg, s, o)))
  }

  /** A whole update, at a pose with a heading before and after, in any reachable state: whatever
      auto-level did, the output has the heading it would have under the frame that was asked for,
      turned by an auto-center step within its slew limit, and exactly that heading when auto-center
      is off. */
  lemma StepHeading(m: Math, cfg: Config, s: State, o: Sample) returns (step: real)
    requires Lawful(m) && m.pi > 0.0 && cfg.center.tauMean >= 0.0 && cfg.center.maxSlewDeg >= 0.0
    requires Healthy(s) && o.q.Some?
    requires !Gimbal(Normalized(m, o.q.value), Asked(m, cfg, s, o).bore)
    requires !Gimbal(Normalized(m, o.q.value), Step(m, cfg, s, o).frame.bore)
    ensures Abs(step) <= Slew(m, cfg.center.maxSlewDeg, Dt(s.clock, o.t))
    ensures !cfg.center.enabled ==> step == 0.0
    ensures Congruent(m.pi, HeadingAngle(m, Step(m, cfg, s, o).out),
                      HeadingAngle(m, Applied(m, Asked(m, cfg, s, o), Normalized(m, o.q.value))) + step)
  {
    hide Lawful, Sound, Length2, Applied, WearStep, TapStep, Levels, Settles, Averaged, GravityBody, Normalized, Dt,
      NextTilt, Rate, TapSettled, CenterMean, Gimbal, HeadingAngle, Congruent, Unit, CoRotated, TiltShift, TiltSet,
      FrameAsked, MeanAsked;
    var q := Normalized(m, o.q.value);
    NormalizedUnit(m, o.q.value);
    var dt := Dt(s.clock, o.t);
    var f1 := FrameAsked(m, s.frame, q, o.requests);
    var z1 := MeanAsked(m, s.frame, s.center.z, q, o.requests);
    AskedHealthy(m, s.frame, s.center.z, q, o.requests);
    var settles := Requests(false, false, SettlesOn(m, cfg, s, o));
    var f2, z2 := FrameAsked(m, f1, q, settles), MeanAsked(m, f1, z1, q, settles);
    AskedHealthy(m, f1, z1, q, settles);
    var wear := WearStep(m, cfg.wear, s.wear, dt, GravityBody(q));
    var rate := Rate(m, s.prev, q, dt);
    var levels := Levels(m, cfg.level, wear.worn, rate, dt);
    var level1 := if o.requests.boresight then s.level.(init := false) else s.level;
    var level := if levels then Averaged(m, cfg.level, level1, GravityBody(q), dt) else level1;
    var tilt := if levels then NextTilt(m, cfg.level, level, f2, dt) else None;
    var f := FrameLeveled(m, f2, tilt, q);
    var z := MeanLeveled(m, f2, tilt, z2, q);
    var center := CenterMean(m, cfg.center, s.center.(z := z), f, q, dt);
    CenteredBore(m, cfg.center, center, f, wear.worn, dt);
    LevelingInvisible(m, cfg.level, level, f2, z2, q, dt);
    var old0, mid := HeadingAngle(m, Applied(m, f2, q)), HeadingAngle(m, Applied(m, f, q));
    CongruentSelf(m.pi, old0);
    step := CenteringTurns(m, cfg.center, center, f, wear.worn, dt, q);
    CongruentSelf(m.pi, step);
    CongruentSum(m.pi, mid, old0, step, step);
    CongruentChain(m.pi, HeadingAngle(m, Step(m, cfg, s, o).out), mid + step, old0 + step);
  }

  /** What was asked: nothing leaves the frame alone; a recenter, by request or by a tap, leaves the
      pose with heading zero and keeps the tilt it finds; a boresight alone makes it the identity. */
  lemma AskedIs(m: Math, cfg: Config, s: State, o: Sample)
    requires Lawful(m) && m.pi > 0.0 && Healthy(s) && o.q.Some?
    ensures var q, f, r := Normalized(m, o.q.value), Asked(m, cfg, s, o), o.requests;
      var recenters := r.recenter || SettlesOn(m, cfg, s, o);
      && (recenters ==> HeadingAngle(m, Applied(m, f, q)) == 0.0)
      && (!recenters && r.boresight ==> Applied(m, f, q) == IDENTITY)
      && (!recenters && !r.boresight ==> f == if r.clear then RAW else s.frame)
      && (!r.boresight ==> f.bore == if r.clear then IDENTITY else s.frame.bore)
  {
    hide Lawful, Sound, Applied, SettlesOn, Recentred, Boresighted, HeadingAngle, Normalized, Length2;
    var q, r := Normalized(m, o.q.value), o.requests;
    NormalizedUnit(m, o.q.value);
    NormalizedUnit(m, q);
    BoresightTares(m, q);
    var f1 := FrameAsked(m, s.frame, q, r);
    AskedHealthy(m, s.frame, s.center.z, q, r);
    var cleared := if r.clear then RAW else s.frame;
    var tared := if r.boresight then Boresighted(m, q) else cleared;
    AskedHealthy(m, s.frame, s.center.z, q, r.(recenter := false));
    RecentreZeroes(m, tared, q);
    RecentreZeroes(m, f1, q);
    RecentreBore(m, tared, q);
    RecentreBore(m, f1, q);
  }

  lemma RecentreBore(m: Math, f: Frame, q: Quat)
    ensures Recentred(m, f, q).bore == f.bore
  {
    hide Heading, Applied, Multiply;
  }

  lemma CenteredBore(m: Math, cfg: CenterConfig, c: Center, f: Frame, worn: bool, dt: real)
    requires m.pi > 0.0
    ensures FrameCentered(m, cfg, c, f, worn, dt).bore == f.bore
  {
    hide YawQuat, Wrap, Clamp, CenteringError;
  }

  // ---- auto-level and auto-center close in -------------------------------------------------------

  /** The share of an error that the time is of the time constant, or the limit if that is less. */
  function Share(off: real, dt: real, tau: real, cap: real): (move: real)
    requires tau > 0.0
  {
    if Portion(off, dt, tau) > cap then cap else Portion(off, dt, tau)
  }

  /** An auto-center step: where it applies at all, it brings the yaw nearer to the mean heading by the
      share of the error that the time is of the time constant, or by the slew limit if that is less;
      nothing overshoots the other way if the interval is within two time constants. */
  lemma CenteringCloses(m: Math, cfg: CenterConfig, c: Center, f: Frame, worn: bool, dt: real)
    requires Lawful(m) && m.pi > 0.0 && 0.0 < dt <= 2.0 * cfg.tauCenter && cfg.maxSlewDeg >= 0.0
    ensures var g := FrameCentered(m, cfg, c, f, worn, dt);
      var off, left := Abs(CenteringError(m, c.z, f)), Abs(CenteringError(m, c.z, g));
      && g.bore == f.bore
      && if cfg.enabled && worn && c.warm >= cfg.tauMean && m.root(Length2(c.z)) > cfg.minResultant
         then left == Abs(off - Share(off, dt, cfg.tauCenter, Slew(m, cfg.maxSlewDeg, dt))) && left <= off
         else g == f
  {
    hide Lawful, HeadingAngle, YawQuat, Wrap, Length2, Slew, Argument, Congruent, Share, Leak, Clamp;
    var g := FrameCentered(m, cfg, c, f, worn, dt);
    if cfg.enabled && worn && c.warm >= cfg.tauMean && m.root(Length2(c.z)) > cfg.minResultant {
      var cap, err, yaw := Slew(m, cfg.maxSlewDeg, dt), CenteringError(m, c.z, f), YawAngle(m, f);
      SlewPositive(m, cfg.maxSlewDeg, dt);
      WrapRange(m.pi, -Argument(m, c.z) - yaw);
      var step := Clamp(Leak(err, cfg.tauCenter, dt, cap), cap);
      StepShares(err, cfg.tauCenter, dt, cap);
      YawQuatAngle(m, Wrap(m.pi, yaw + step));
      WrapRange(m.pi, yaw + step);
      CongruentChain(m.pi, YawAngle(m, g), Wrap(m.pi, yaw + step), yaw + step);
      LeftOf(m.pi, -Argument(m, c.z), yaw, step, YawAngle(m, g), err);
      WrapRange(m.pi, err - step);
      WrapSame(m.pi, -Argument(m, c.z) - YawAngle(m, g), err - step);
    }
  }

  lemma StepShares(err: real, tau: real, dt: real, cap: real)
    requires 0.0 < dt <= 2.0 * tau && cap >= 0.0
    ensures var step := Clamp(Leak(err, tau, dt, cap), cap);
      Abs(err - step) == Abs(Abs(err) - Share(Abs(err), dt, tau, cap)) <= Abs(err)
  {
    hide Portion;
    if err >= 0.0 {
      PortionBounds(err, dt, tau);
    } else {
      PortionBounds(-err, dt, tau);
      PortionOdd(err, dt, tau);
    }
  }

  lemma PortionOdd(x: real, dt: real, tau: real)
    requires tau > 0.0
    ensures Portion(-x, dt, tau) == -Portion(x, dt, tau)
  {
    Divided(x, dt, tau);
    Divided(-x, dt, tau);
  }

  lemma PortionBounds(x: real, dt: real, tau: real)
    requires 0.0 < dt <= 2.0 * tau && x >= 0.0
    ensures 0.0 <= Portion(x, dt, tau) <= 2.0 * x
  {
    var k := dt / tau;
    assert k * tau == dt;
    if k > 2.0 { ProductSign(k - 2.0, tau); }
    if k < 0.0 { ProductSign(-k, tau); }
    Divided(x, dt, tau);
    assert Portion(x, dt, tau) == Product(x, k);
    hide Portion;
    NonNegative(x, k);
    AtMost(x, k - 1.0);
    assert Product(x, k - 1.0) == Product(x, k) - x;
  }

  lemma Divided(x: real, dt: real, tau: real)
    requires tau > 0.0
    ensures x * dt / tau == x * (dt / tau)
  {
  }

  lemma LeftOf(pi: real, mean: real, yaw: real, step: real, moved: real, err: real)
    requires Congruent(pi, moved, yaw + step) && Congruent(pi, err, mean - yaw)
    ensures Congruent(pi, mean - moved, err - step)
  {
    hide Congruent;
    CongruentSelf(pi, mean);
    CongruentSelf(pi, step);
    CongruentSum(pi, mean, mean, moved, yaw + step);
    CongruentSum(pi, err, mean - yaw, step, step);
    assert mean - yaw - step == mean - (yaw + step);
    CongruentBack(pi, err - step, mean - (yaw + step));
    CongruentChain(pi, mean - moved, mean - (yaw + step), err - step);
  }

  /** The mean of the old value, weighing as much as `tau` seconds, and the new one, as `dt`. */
  function Weighted(old0: real, tau: real, new0: real, dt: real): (x: real)
    requires tau + dt > 0.0
  {
    (tau * old0 + dt * new0) / (tau + dt)
  }

  lemma BlendWeighs(old0: real, new0: real, tau: real, dt: real)
    requires tau + dt > 0.0
    ensures Blend(old0, new0, Weight(tau, dt)) == Weighted(old0, tau, new0, dt)
  {
    var n := tau + dt;
    var a := dt / n;
    assert a * n == dt;
    assert (old0 + a * (new0 - old0)) * n == old0 * n + (a * n) * (new0 - old0);
    assert (old0 + a * (new0 - old0)) * n == tau * old0 + dt * new0;
    Quotient(old0 + a * (new0 - old0), n, tau * old0 + dt * new0);
  }

  lemma Quotient(x: real, n: real, p: real)
    requires n > 0.0 && x * n == p
    ensures x == p / n
  {
  }

  /** The tilt auto-level is after: the one that makes the long-term gravity point straight down. */
  function Target(m: Math, l: Level): (tilt: Quat) {
    Conjugate(ShortestArcToDown(m, l.uAcc))
  }

  /** A limited step never turns away from its goal: the cosine of half the angle between them, in
      size, does not fall. Within the limit it arrives. */
  lemma StepCloses(m: Math, a: Quat, b: Quat, maxAngle: real)
    requires Lawful(m) && Unit(a) && Unit(b) && maxAngle >= 0.0
    ensures Abs(Dot4(QuatStep(m, a, b, maxAngle), b)) >= Abs(Dot4(a, b))
    ensures QuatAngle(m, Multiply(Conjugate(a), ShortWay(a, b))) <= maxAngle ==>
              QuatStep(m, a, b, maxAngle) in {b, Scale(b, -1.0)}
  {
    hide Lawful, Normalized, Multiply, QuatAngle, Between, Norm2, Dot4, Scale, Unit;
    var to := ShortWay(a, b);
    ShortWayUnit(a, b);
    DotFlips(a, b);
    DotUnit(a, b);
    DotUnit(to, to);
    var ang := QuatAngle(m, Multiply(Conjugate(a), to));
    DotFlips(to, b);
    DotFlips(QuatStep(m, a, b, maxAngle), b);
    if ang > maxAngle && ang != 0.0 {
      var t := maxAngle / ang;
      Fraction(maxAngle, ang);
      DotUnit(a, to);
      BetweenCloses(m, a, to, t);
    }
  }

  /** Auto-level learns from this sample: it is on, the tracker worn, and the head slow. */
  predicate Learns(m: Math, cfg: Config, s: State, o: Sample)
    requires m.pi > 0.0 && o.q.Some?
  {
    var dt := Dt(s.clock, o.t);
    && cfg.level.enabled && Step(m, cfg, s, o).wear.worn && dt > 0.0
    && Rate(m, s.prev, Normalized(m, o.q.value), dt) < Rad(m, cfg.level.rejectRateDeg)
  }

  /** It has learned for long enough, and what it learned is definite and within its range. */
  predicate Ready(m: Math, cfg: LevelConfig, l: Level) {
    && l.wornTotal >= cfg.warmup && VecNorm(m, l.uAcc) > 0.5
    && QuatAngle(m, Target(m, l)) < Rad(m, cfg.maxTiltDeg)
  }

  /** The mean of the old and the new gravity, in the proportion of the time constant and the interval;
      the new alone if there is no old one. */
  predicate Mixes(cfg: LevelConfig, old0: Option<Vec3>, g: Vec3, dt: real, u: Vec3)
    requires cfg.tau >= 0.0 && dt > 0.0
  {
    match old0
    case None => u == g
    case Some(v) =>
      && u.x == Weighted(v.x, cfg.tau, g.x, dt) && u.y == Weighted(v.y, cfg.tau, g.y, dt)
      && u.z == Weighted(v.z, cfg.tau, g.z, dt)
  }

  /** What one update makes of the average and of the tilt that was asked for. */
  ghost predicate Leveled(m: Math, cfg: Config, s: State, o: Sample, t: State)
    requires m.pi > 0.0 && o.q.Some? && cfg.level.tau >= 0.0
  {
    var dt, f, learns := Dt(s.clock, o.t), Asked(m, cfg, s, o), Learns(m, cfg, s, o);
    var next := QuatStep(m, f.bore, Target(m, t.level), Slew(m, cfg.level.maxSlewDeg, dt));
    var moves := learns && Ready(m, cfg.level, t.level)
                 && QuatAngle(m, Multiply(Conjugate(f.bore), next)) > 0.0000001;
    && (learns ==>
          && t.level.wornTotal == s.level.wornTotal + dt && t.level.init
          && Mixes(cfg.level, if s.level.init && !o.requests.boresight then Some(s.level.uAcc) else None,
                   GravityBody(Normalized(m, o.q.value)), dt, t.level.uAcc))
    && (!learns ==> t.level.wornTotal == s.level.wornTotal && t.level.uAcc == s.level.uAcc)
    && t.level.updates == s.level.updates + (if moves then 1 else 0)
    && t.frame.bore == (if moves then next else f.bore)
  }

  /** Auto-level over a whole update. Where it does not learn, it neither learns nor moves the tilt that
      was asked for. Where it does, it counts the time and mixes the gravity in, afresh after a
      boresight; and if it is ready, the tilt takes the limited step to its target, unless that is
      under 1e-7 rad, never turning away from it and arriving if the limit allows. */
  lemma LevelStep(m: Math, cfg: Config, s: State, o: Sample)
    requires Lawful(m) && m.pi > 0.0 && Healthy(s) && o.q.Some?
    requires cfg.level.tau >= 0.0 && cfg.level.maxSlewDeg >= 0.0
    ensures var f, t := Asked(m, cfg, s, o), Step(m, cfg, s, o);
      var target, slew := Target(m, t.level), Slew(m, cfg.level.maxSlewDeg, Dt(s.clock, o.t));
      && Leveled(m, cfg, s, o, t)
      && Abs(Dot4(t.frame.bore, target)) >= Abs(Dot4(f.bore, target))
      && (t.frame.bore != f.bore && QuatAngle(m, Multiply(Conjugate(f.bore), ShortWay(f.bore, target))) <= slew ==>
            t.frame.bore in {target, Scale(target, -1.0)})
  {
    hide Lawful, Length2, Step, GravityBody, Normalized, Dt, Asked, QuatStep, Target, QuatAngle, Multiply, Slew,
      Scale, Dot4, Norm2, Learns, Ready, Mixes, ShortWay;
    var f, t := Asked(m, cfg, s, o), Step(m, cfg, s, o);
    var slew := Slew(m, cfg.level.maxSlewDeg, Dt(s.clock, o.t));
    LevelParts(m, cfg, s, o);
    AskedSound(m, cfg, s, o);
    TargetUnit(m, t.level);
    SlewPositive(m, cfg.level.maxSlewDeg, Dt(s.clock, o.t));
    StepCloses(m, f.bore, Target(m, t.level), slew);
  }

  lemma TargetUnit(m: Math, l: Level)
    requires Lawful(m)
    ensures Unit(Target(m, l))
  {
    hide Lawful, ShortestArcToDown;
    ShortestArcCarries(m, l.uAcc);
  }

  lemma AskedSound(m: Math, cfg: Config, s: State, o: Sample)
    requires Lawful(m) && m.pi > 0.0 && Healthy(s) && o.q.Some?
    ensures Sound(Asked(m, cfg, s, o))
  {
    hide Lawful, Sound, Length2, FrameAsked, MeanAsked, Normalized, SettlesOn;
    var q := Normalized(m, o.q.value);
    AskedHealthy(m, s.frame, s.center.z, q, o.requests);
    AskedHealthy(m, FrameAsked(m, s.frame, q, o.requests), MeanAsked(m, s.frame, s.center.z, q, o.requests), q,
                 Requests(false, false, SettlesOn(m, cfg, s, o)));
  }

  lemma LevelParts(m: Math, cfg: Config, s: State, o: Sample)
    requires m.pi > 0.0 && o.q.Some? && cfg.level.tau >= 0.0
    ensures Leveled(m, cfg, s, o, Step(m, cfg, s, o))
  {
    hide WearStep, TapStep, GravityBody, Normalized, Dt, Rate, TapSettled, CenterMean, Applied, Settles,
      FrameAsked, MeanAsked, QuatStep, ShortestArcToDown, QuatAngle, VecNorm, Multiply, Blend, Weight, Weighted,
      Rad, Slew, TiltShift, CoRotated, FrameCentered;
    var q, dt := Normalized(m, o.q.value), Dt(s.clock, o.t);
    var f2 := Asked(m, cfg, s, o);
    var z1 := MeanAsked(m, s.frame, s.center.z, q, o.requests);
    var settles := Requests(false, false, SettlesOn(m, cfg, s, o));
    var z2 := MeanAsked(m, FrameAsked(m, s.frame, q, o.requests), z1, q, settles);
    var wear := WearStep(m, cfg.wear, s.wear, dt, GravityBody(q));
    var levels := Levels(m, cfg.level, wear.worn, Rate(m, s.prev, q, dt), dt);
    var level1 := if o.requests.boresight then s.level.(init := false) else s.level;
    var level := if levels then Averaged(m, cfg.level, level1, GravityBody(q), dt) else level1;
    var tilt := if levels then NextTilt(m, cfg.level, level, f2, dt) else None;
    var f := FrameLeveled(m, f2, tilt, q);
    var z := MeanLeveled(m, f2, tilt, z2, q);
    CenteredBore(m, cfg.center, CenterMean(m, cfg.center, s.center.(z := z), f, q, dt), f, wear.worn, dt);
    if dt > 0.0 {
      var g := GravityBody(q);
      BlendWeighs(level1.uAcc.x, g.x, cfg.level.tau, dt);
      BlendWeighs(level1.uAcc.y, g.y, cfg.level.tau, dt);
      BlendWeighs(level1.uAcc.z, g.z, cfg.level.tau, dt);
    }
  }

  lemma Fraction(x: real, y: real)
    requires 0.0 <= x < y
    ensures 0.0 <= x / y <= 1.0
  {
    var t := x / y;
    assert t * y == x;
    if t < 0.0 { ProductSign(-t, y); }
    if t > 1.0 { ProductSign(t - 1.0, y); }
  }

  lemma DotFlips(a: Quat, b: Quat)
    ensures Dot4(a, Scale(b, -1.0)) == -Dot4(a, b) && Dot4(a, b) == Dot4(b, a)
    ensures Dot4(Scale(a, -1.0), b) == -Dot4(a, b)
  {
  }

  lemma DotUnit(a: Quat, b: Quat)
    requires Unit(a) && Unit(b)
    ensures -1.0 <= Dot4(a, b) <= 1.0 && Dot4(a, a) == 1.0 && Dot4(b, b) == 1.0
  {
    NormSign(Quat(a.w - b.w, a.x - b.x, a.y - b.y, a.z - b.z));
    NormSign(Quat(a.w + b.w, a.x + b.x, a.y + b.y, a.z + b.z));
    DotGaps(a, b);
  }

  lemma NormSign(q: Quat)
    ensures Norm2(q) >= 0.0
  {
    assert Norm2(q) == Product(q.w, q.w) + Product(q.x, q.x) + Product(q.y, q.y) + Product(q.z, q.z);
    hide Product, Norm2;
    ProductSign(q.w, q.w);
    ProductSign(q.x, q.x);
    ProductSign(q.y, q.y);
    ProductSign(q.z, q.z);
  }

  lemma DotGaps(a: Quat, b: Quat)
    ensures Norm2(Quat(a.w - b.w, a.x - b.x, a.y - b.y, a.z - b.z)) == Norm2(a) + Norm2(b) - 2.0 * Dot4(a, b)
    ensures Norm2(Quat(a.w + b.w, a.x + b.x, a.y + b.y, a.z + b.z)) == Norm2(a) + Norm2(b) + 2.0 * Dot4(a, b)
    ensures Dot4(a, a) == Norm2(a) && Dot4(b, b) == Norm2(b)
  {
  }

  /** Part of the way along the straight line, back on the sphere, is nearer to the end. */
  lemma BetweenCloses(m: Math, a: Quat, to: Quat, t: real)
    requires Lawful(m) && Unit(a) && Unit(to) && 0.0 <= t <= 1.0 && 0.0 <= Dot4(a, to) <= 1.0
    ensures Dot4(Normalized(m, Between(a, to, t)), to) >= Dot4(a, to)
  {
    hide Lawful, Between, Dot4, Scale, Unit, Inverse;
    var c, p := Dot4(a, to), Between(a, to, t);
    BetweenParts(a, to, t);
    LongEnough(c, t);
    var k := Inverse(m, Norm2(p));
    InverseAt(m, Norm2(p));
    DotScales(p, k, to);
    assert Product(Product(k, k), Norm2(p)) == k * k * Norm2(p);
    assert Product(k, Reach(c, t)) == k * ((1.0 - t) * c + t);
    hide Product, Reach, Size;
    Nearer(c, t, k);
  }

  function Size(c: real, t: real): (n2: real) {
    (1.0 - t) * (1.0 - t) + 2.0 * ((1.0 - t) * t) * c + t * t
  }

  lemma BetweenDot(a: Quat, to: Quat, t: real, x: Quat)
    ensures Dot4(Between(a, to, t), x) == Product(1.0 - t, Dot4(a, x)) + Product(t, Dot4(to, x))
  {
    hide Blend, Product, Dot4;
    DotProducts(a, x);
    DotProducts(to, x);
    DotProducts(Between(a, to, t), x);
    BlendTimes(a.w, to.w, t, x.w);
    BlendTimes(a.x, to.x, t, x.x);
    BlendTimes(a.y, to.y, t, x.y);
    BlendTimes(a.z, to.z, t, x.z);
    FourSum(1.0 - t, Product(a.w, x.w), Product(a.x, x.x), Product(a.y, x.y), Product(a.z, x.z));
    FourSum(t, Product(to.w, x.w), Product(to.x, x.x), Product(to.y, x.y), Product(to.z, x.z));
  }

  lemma DotProducts(a: Quat, x: Quat)
    ensures Dot4(a, x) == Product(a.w, x.w) + Product(a.x, x.x) + Product(a.y, x.y) + Product(a.z, x.z)
  {
  }

  lemma BlendTimes(u: real, v: real, t: real, x: real)
    ensures Product(Blend(u, v, t), x) == Product(1.0 - t, Product(u, x)) + Product(t, Product(v, x))
  {
  }

  lemma FourSum(k: real, p: real, q: real, r: real, s: real)
    ensures Product(k, p + q + r + s) == Product(k, p) + Product(k, q) + Product(k, r) + Product(k, s)
  {
  }

  lemma BetweenParts(a: Quat, to: Quat, t: real)
    requires Unit(a) && Unit(to)
    ensures Norm2(Between(a, to, t)) == Size(Dot4(a, to), t)
    ensures Dot4(Between(a, to, t), to) == (1.0 - t) * Dot4(a, to) + t
  {
    hide Dot4, Between, Norm2, Unit;
    var p := Between(a, to, t);
    DotUnit(a, to);
    DotGaps(p, p);
    DotFlips(a, to);
    DotFlips(a, p);
    DotFlips(to, p);
    BetweenDot(a, to, t, to);
    BetweenDot(a, to, t, a);
    BetweenDot(a, to, t, p);
    var c := Dot4(a, to);
    assert Dot4(p, p) == Product(1.0 - t, Product(1.0 - t, 1.0) + Product(t, c)) +
                         Product(t, Product(1.0 - t, c) + Product(t, 1.0));
    SizeIs(c, t);
  }

  lemma SizeIs(c: real, t: real)
    ensures Size(c, t) == Product(1.0 - t, Product(1.0 - t, 1.0) + Product(t, c)) +
                          Product(t, Product(1.0 - t, c) + Product(t, 1.0))
  {
  }

  lemma NonNegative(x: real, y: real)
    requires x >= 0.0 && y >= 0.0
    ensures x * y >= 0.0 && Product(x, y) >= 0.0
  {
    ProductSign(x, y);
    ProductSign(y, x);
    assert Product(x, y) == x * y && Product(y, x) == x * y;
  }

  lemma LongEnough(c: real, t: real)
    requires 0.0 <= c && 0.0 <= t <= 1.0
    ensures Size(c, t) >= 0.5
  {
    ProductSign(t - 0.5, t - 0.5);
    assert (1.0 - t) * (1.0 - t) + t * t == 0.5 + 2.0 * Product(t - 0.5, t - 0.5);
    NonNegative(1.0 - t, t);
    NonNegative((1.0 - t) * t, c);
  }

  lemma DotScales(p: Quat, k: real, to: Quat)
    ensures Dot4(Scale(p, k), to) == k * Dot4(p, to)
  {
  }

  /** How near to the end the blend comes, before it is stretched. */
  function Reach(c: real, t: real): (e: real) {
    (1.0 - t) * c + t
  }

  lemma Nearer(c: real, t: real, k: real)
    requires 0.0 <= c <= 1.0 && 0.0 <= t <= 1.0 && k > 0.0 && Product(Product(k, k), Size(c, t)) == 1.0
    ensures Product(k, Reach(c, t)) >= c
  {
    hide Product, Size, Reach;
    ReachSurplus(c, t);
    NonNegative(k, Reach(c, t));
    NonNegative(k, k);
    var more := Product(Reach(c, t), Reach(c, t)) - Product(Product(c, c), Size(c, t));
    NonNegative(Product(k, k), more);
    Rescaled(k, Reach(c, t), c, Size(c, t));
    RootOrder(Product(k, Reach(c, t)), c);
  }

  lemma ReachSurplus(c: real, t: real)
    requires 0.0 <= c <= 1.0 && 0.0 <= t <= 1.0
    ensures Reach(c, t) >= 0.0
    ensures Product(Reach(c, t), Reach(c, t)) - Product(Product(c, c), Size(c, t)) >= 0.0
  {
    var u := (1.0 - t) * c;
    NonNegative(1.0 - t, c);
    LongerThan(c, t, u);
    Surplus(c, t);
  }

  lemma LongerThan(c: real, t: real, u: real)
    requires 0.0 <= c <= 1.0 && 0.0 <= t && u >= 0.0
    ensures (1.0 - c * c) * (2.0 * (t * u) + t * t) >= 0.0
  {
    NonNegative(t, u);
    NonNegative(t, t);
    NonNegative(c, 1.0 - c);
    assert c * (1.0 - c) == c - c * c;
    NonNegative(1.0 - c * c, 2.0 * (t * u) + t * t);
  }

  lemma RootOrder(x: real, c: real)
    requires x >= 0.0 && c >= 0.0 && Product(x, x) >= Product(c, c)
    ensures x >= c
  {
    if x < c {
      SquareOrder(x, c);
    }
  }

  lemma SquareOrder(x: real, c: real)
    requires 0.0 <= x < c
    ensures Product(x, x) < Product(c, c)
  {
    ProductSign(c - x, c + x);
    assert Product(c - x, c + x) == Product(c, c) - Product(x, x);
  }

  lemma Surplus(c: real, t: real)
    ensures var u := (1.0 - t) * c;
      Product(Reach(c, t), Reach(c, t)) - Product(Product(c, c), Size(c, t)) ==
      (1.0 - c * c) * (2.0 * (t * u) + t * t)
  {
    var u := (1.0 - t) * c;
    assert c * c * ((1.0 - t) * (1.0 - t)) == u * u;
    assert 2.0 * ((1.0 - t) * t) * c == 2.0 * (t * u);
    assert Size(c, t) == (1.0 - t) * (1.0 - t) + 2.0 * (t * u) + t * t;
  }

  lemma Rescaled(k: real, e: real, c: real, n2: real)
    requires Product(Product(k, k), n2) == 1.0
    ensures Product(Product(k, k), Product(e, e) - Product(Product(c, c), n2)) ==
            Product(Product(k, e), Product(k, e)) - Product(c, c)
  {
    assert k * k * (c * c * n2) == (k * k * n2) * (c * c);
  }

  // ---- auto-center over a whole update ------------------------------------------------------------

  /** The frame auto-level leaves, and the mean it leaves in it: what was asked for, moved to the new
      tilt if there is one. */
  function LeveledFrame(m: Math, cfg: Config, s: State, o: Sample): (f: Frame)
    requires m.pi > 0.0 && o.q.Some?
  {
    var f, t := Asked(m, cfg, s, o), Step(m, cfg, s, o);
    if t.level.updates == s.level.updates then f else TiltSet(m, f, t.frame.bore, Normalized(m, o.q.value))
  }

  function LeveledMean(m: Math, cfg: Config, s: State, o: Sample): (z: Complex)
    requires m.pi > 0.0 && o.q.Some?
  {
    var q, r := Normalized(m, o.q.value), o.requests;
    var f, t := Asked(m, cfg, s, o), Step(m, cfg, s, o);
    var z := if r.clear || r.boresight || r.recenter || SettlesOn(m, cfg, s, o) then Seeded(m, f, q) else s.center.z;
    if t.level.updates == s.level.updates then z else CoRotated(m, z, TiltShift(m, f, t.frame.bore, q))
  }

  /** The mean takes in the heading of the tared pose: its distance from that direction shrinks in the
      proportion of the time constant to the time constant and the interval. */
  predicate TakesIn(tau: real, dt: real, z: Complex, d: Complex, w: Complex) {
    && (tau + dt) * (w.re - d.re) == tau * (z.re - d.re)
    && (tau + dt) * (w.im - d.im) == tau * (z.im - d.im)
  }

  /** Auto-center over a whole update: any request, and a tap recenter, restarts the mean at the present
      heading; time passed takes the heading in; then the yaw is brought nearer to the mean as an
      auto-center step does it, and the output is the pose in the frame that results. */
  lemma CenterStep(m: Math, cfg: Config, s: State, o: Sample)
    requires Lawful(m) && m.pi > 0.0 && o.q.Some? && cfg.center.tauMean >= 0.0
    requires cfg.center.tauCenter >= 0.05 && cfg.center.maxSlewDeg >= 0.0
    ensures var q, dt, t := Normalized(m, o.q.value), Dt(s.clock, o.t), Step(m, cfg, s, o);
      var f, z := LeveledFrame(m, cfg, s, o), LeveledMean(m, cfg, s, o);
      var off, left := Abs(CenteringError(m, t.center.z, f)), Abs(CenteringError(m, t.center.z, t.frame));
      var on := dt > 0.0 && cfg.center.enabled && t.wear.worn && t.center.warm >= cfg.center.tauMean
                && m.root(Length2(t.center.z)) > cfg.center.minResultant;
      && t.center.warm == s.center.warm + dt && t.frame.bore == f.bore
      && (dt > 0.0 ==> TakesIn(cfg.center.tauMean, dt, z, Seeded(m, f, q), t.center.z))
      && (dt == 0.0 ==> t.center.z == z)
      && (!on ==> t.frame == f)
      && (on ==> left == Abs(off - Share(off, dt, cfg.center.tauCenter, Slew(m, cfg.center.maxSlewDeg, dt))) <= off)
      && t.out == Applied(m, t.frame, q)
  {
    hide Lawful, CenterMean, FrameCentered, CenteringError, Length2, Slew, Share, LeveledFrame, LeveledMean, Step,
      Seeded, Applied, TakesIn, Dt, Normalized;
    var q, dt, t := Normalized(m, o.q.value), Dt(s.clock, o.t), Step(m, cfg, s, o);
    var f, z := LeveledFrame(m, cfg, s, o), LeveledMean(m, cfg, s, o);
    CenterParts(m, cfg, s, o);
    MeanTakesIn(m, cfg.center, s.center.(z := z), f, q, dt);
    CenteredBore(m, cfg.center, t.center, f, t.wear.worn, dt);
    if dt > 0.0 {
      CenteringCloses(m, cfg.center, t.center, f, t.wear.worn, dt);
    } else {
      NoTimeNoCenter(m, cfg.center, t.center, f, t.wear.worn, dt);
    }
  }

  lemma NoTimeNoCenter(m: Math, cfg: CenterConfig, c: Center, f: Frame, worn: bool, dt: real)
    requires m.pi > 0.0 && dt <= 0.0
    ensures FrameCentered(m, cfg, c, f, worn, dt) == f
  {
  }

  lemma MeanTakesIn(m: Math, cfg: CenterConfig, c: Center, f: Frame, q: Quat, dt: real)
    requires m.pi > 0.0 && cfg.tauMean >= 0.0 && dt >= 0.0
    ensures var d := CenterMean(m, cfg, c, f, q, dt);
      && d.warm == c.warm + dt
      && (dt > 0.0 ==> TakesIn(cfg.tauMean, dt, c.z, Seeded(m, f, q), d.z))
      && (dt == 0.0 ==> d.z == c.z)
  {
    hide Seeded, Weight, Blend;
    if dt > 0.0 {
      var d := Seeded(m, f, q);
      BlendTakes(c.z.re, d.re, cfg.tauMean, dt);
      BlendTakes(c.z.im, d.im, cfg.tauMean, dt);
    }
  }

  lemma BlendTakes(x: real, d: real, tau: real, dt: real)
    requires tau >= 0.0 && dt > 0.0
    ensures (tau + dt) * (Blend(x, d, Weight(tau, dt)) - d) == tau * (x - d)
  {
    var a := dt / (tau + dt);
    assert a * (tau + dt) == dt;
    assert (tau + dt) * (x + a * (d - x) - d) == (tau + dt) * (x - d) + (a * (tau + dt)) * (d - x);
  }

  lemma CenterParts(m: Math, cfg: Config, s: State, o: Sample)
    requires m.pi > 0.0 && o.q.Some?
    ensures var q, dt, t := Normalized(m, o.q.value), Dt(s.clock, o.t), Step(m, cfg, s, o);
      var f, z := LeveledFrame(m, cfg, s, o), LeveledMean(m, cfg, s, o);
      && t.center == CenterMean(m, cfg.center, s.center.(z := z), f, q, dt)
      && t.frame == FrameCentered(m, cfg.center, t.center, f, t.wear.worn, dt)
      && t.out == Applied(m, t.frame, q)
  {
    hide WearStep, TapStep, GravityBody, Normalized, Dt, Rate, TapSettled, CenterMean, Applied, Settles,
      QuatStep, ShortestArcToDown, QuatAngle, VecNorm, Multiply, Blend, Weight, Seeded, TiltSet,
      Rad, Slew, TiltShift, CoRotated, FrameCentered, Boresighted, Recentred, Levels, NextTilt, Averaged;
    var q, dt := Normalized(m, o.q.value), Dt(s.clock, o.t);
    var f1, f2 := FrameAsked(m, s.frame, q, o.requests), Asked(m, cfg, s, o);
    var z1 := MeanAsked(m, s.frame, s.center.z, q, o.requests);
    var settles := Requests(false, false, SettlesOn(m, cfg, s, o));
    var z2 := MeanAsked(m, f1, z1, q, settles);
    var r := o.requests;
    assert z2 == if r.clear || r.boresight || r.recenter || SettlesOn(m, cfg, s, o) then Seeded(m, f2, q) else s.center.z;
    hide FrameAsked, MeanAsked;
    var wear := WearStep(m, cfg.wear, s.wear, dt, GravityBody(q));
    var levels := Levels(m, cfg.level, wear.worn, Rate(m, s.prev, q, dt), dt);
    var level1 := if o.requests.boresight then s.level.(init := false) else s.level;
    var level := if levels then Averaged(m, cfg.level, level1, GravityBody(q), dt) else level1;
    AveragedKeeps(m, cfg.level, level1, GravityBody(q), dt);
    var tilt := if levels then NextTilt(m, cfg.level, level, f2, dt) else None;
    var f := FrameLeveled(m, f2, tilt, q);
    var z := MeanLeveled(m, f2, tilt, z2, q);
    var center := CenterMean(m, cfg.center, s.center.(z := z), f, q, dt);
    CenteredBore(m, cfg.center, center, f, wear.worn, dt);
    if tilt.Some? {
      TiltIs(m, f2, tilt.value, q);
    }
  }

  lemma AveragedKeeps(m: Math, cfg: LevelConfig, l: Level, g: Vec3, dt: real)
    ensures Averaged(m, cfg, l, g, dt).updates == l.updates
  {
  }

  lemma TiltIs(m: Math, f: Frame, tilt: Quat, q: Quat)
    requires m.pi > 0.0
    ensures TiltSet(m, f, tilt, q).bore == tilt
  {
  }
}
