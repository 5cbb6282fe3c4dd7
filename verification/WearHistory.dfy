/** What wear detection means, over whole runs of host/libheadtracker/src/stabilizer.cpp:173-211: the
    tracker counts as worn exactly when it was alive for long enough, and has since then neither been
    moved by a jolt nor lain still for long. Everything here is stated on the samples. */
module WearHistory {
  import opened Wire
  import opened Angles
  import opened Orientation
  import opened Stabilizer

  /** A sample that time passed before: the seconds since the finite one before it, and gravity. */
  datatype Look = Look(dt: real, g: Vec3)

  /** When the last finite sample was taken. */
  function LastTime(samples: seq<Sample>): (t: Option<int>)
    decreases |samples|
  {
    if samples == [] then None
    else
      var o := samples[|samples| - 1];
      if o.q.Some? then Some(o.t) else LastTime(samples[..|samples| - 1])
  }

  /** Seconds on a wrapping microsecond counter. */
  function Gap(from: int, to: int): (s: real) {
    ((to - from) % 0x1_0000_0000) as real * 0.000001
  }

  /** The finite samples of a run that follow another within a tenth of a second. */
  function LooksOf(m: Math, samples: seq<Sample>): (looks: seq<Look>)
    decreases |samples|
  {
    if samples == [] then []
    else
      var before, o := samples[..|samples| - 1], samples[|samples| - 1];
      var last := LastTime(before);
      LooksOf(m, before) +
      if o.q.Some? && last.Some? && 0.0 < Gap(last.value, o.t) <= 0.1
      then [Look(Gap(last.value, o.t), GravityBody(Normalized(m, o.q.value)))] else []
  }

  // ---- what is measured -------------------------------------------------------------------------

  ghost predicate Timed(looks: seq<Look>) {
    forall k :: 0 <= k < |looks| ==> looks[k].dt > 0.0
  }

  /** The running mean of gravity, of half a second. */
  ghost function Reference(looks: seq<Look>): (g: Vec3)
    requires looks != [] && Timed(looks)
    decreases |looks|
  {
    var last := looks[|looks| - 1];
    if |looks| == 1 then last.g
    else
      var r := Reference(looks[..|looks| - 1]);
      Vec3(Weighted(r.x, 0.5, last.g.x, last.dt), Weighted(r.y, 0.5, last.g.y, last.dt),
           Weighted(r.z, 0.5, last.g.z, last.dt))
  }

  /** How far gravity is from it, as an angle. */
  ghost function Deviation(m: Math, looks: seq<Look>): (rad: real)
    requires looks != [] && Timed(looks)
  {
    VecAngle(m, looks[|looks| - 1].g, Reference(looks))
  }

  /** The running mean of its square. */
  ghost function MeanSquare(m: Math, window: real, looks: seq<Look>): (x: real)
    requires Timed(looks) && window >= 0.0
    decreases |looks|
  {
    if looks == [] then 0.0
    else
      Weighted(MeanSquare(m, window, looks[..|looks| - 1]), window,
               Product(Deviation(m, looks), Deviation(m, looks)), looks[|looks| - 1].dt)
  }

  datatype Motion = Motion(dt: real, dev: real, rms: real)

  ghost function MotionsOf(m: Math, window: real, looks: seq<Look>): (ms: seq<Motion>)
    requires Timed(looks) && window >= 0.0
    ensures |ms| == |looks|
    decreases |looks|
  {
    if looks == [] then []
    else
      MotionsOf(m, window, looks[..|looks| - 1]) +
      [Motion(looks[|looks| - 1].dt, Deviation(m, looks), m.root(MeanSquare(m, window, looks)))]
  }

  // ---- what worn means --------------------------------------------------------------------------

  predicate Jolt(m: Math, x: Motion) {
    x.dev > Rad(m, 20.0)
  }

  predicate Alive(m: Math, cfg: WearConfig, x: Motion) {
    x.rms > Rad(m, cfg.aliveMinDeg)
  }

  /** From the a-th motion to the last, all are alive or all are still, and none but the first is a
      jolt. */
  ghost predicate Stretch(m: Math, cfg: WearConfig, ms: seq<Motion>, a: nat, alive: bool) {
    && a <= |ms|
    && forall i :: a <= i < |ms| ==> Alive(m, cfg, ms[i]) == alive && (i > a ==> !Jolt(m, ms[i]))
  }

  /** How long the motions from the a-th on lasted. */
  function Time(ms: seq<Motion>, a: nat): (t: real)
    decreases |ms|
  {
    if |ms| <= a then 0.0 else Time(ms[..|ms| - 1], a) + ms[|ms| - 1].dt
  }

  /** A stretch that has now lasted that long. */
  ghost predicate Lasted(m: Math, cfg: WearConfig, ms: seq<Motion>, alive: bool, hold: real) {
    exists a: nat :: a < |ms| && Stretch(m, cfg, ms, a, alive) && Time(ms, a) >= hold
  }

  /** Neither a jolt nor the end of a long stillness. */
  ghost predicate Trusted(m: Math, cfg: WearConfig, ms: seq<Motion>, k: nat)
    requires k < |ms|
  {
    !Jolt(m, ms[k]) && !Lasted(m, cfg, ms[..k + 1], false, cfg.offHold)
  }

  /** The j-th motion ended a long enough time alive, and nothing since then said otherwise. */
  ghost predicate WornSince(m: Math, cfg: WearConfig, ms: seq<Motion>, j: nat) {
    && 0 < j <= |ms| && Lasted(m, cfg, ms[..j], true, cfg.wornHold)
    && forall k :: j <= k < |ms| ==> Trusted(m, cfg, ms, k)
  }

  ghost predicate Worn(m: Math, cfg: WearConfig, ms: seq<Motion>) {
    exists j: nat :: WornSince(m, cfg, ms, j)
  }

  // ---- the machine ------------------------------------------------------------------------------

  function WearAfter(m: Math, cfg: WearConfig, looks: seq<Look>): (w: Wear)
    decreases |looks|
  {
    if looks == [] then START.wear
    else WearStep(m, cfg, WearAfter(m, cfg, looks[..|looks| - 1]), looks[|looks| - 1].dt, looks[|looks| - 1].g)
  }

  /** The wear state of a run is that of the samples that time passed before. */
  lemma {:induction false} RunWear(m: Math, cfg: Config, samples: seq<Sample>)
    requires m.pi > 0.0
    ensures Run(m, cfg, START, samples).wear == WearAfter(m, cfg.wear, LooksOf(m, samples))
    ensures var clock := Run(m, cfg, START, samples).clock;
      clock.haveT == LastTime(samples).Some? && (clock.haveT ==> clock.lastT == LastTime(samples).value)
    decreases |samples|
  {
    hide Updated, WearStep, GravityBody, Normalized;
    if samples != [] {
      var before, o := samples[..|samples| - 1], samples[|samples| - 1];
      RunWear(m, cfg, before);
      var s, looks := Run(m, cfg, START, before), LooksOf(m, before);
      if o.q.Some? {
        WearOfStep(m, cfg, s, o);
        var dt, g := Dt(s.clock, o.t), GravityBody(Normalized(m, o.q.value));
        NoTimeNoWear(m, cfg.wear, s.wear, dt, g);
        if dt > 0.0 {
          assert (looks + [Look(dt, g)])[..|looks|] == looks;
        } else {
          assert LooksOf(m, samples) == looks;
        }
      } else {
        assert LooksOf(m, samples) == looks;
      }
    }
  }

  lemma {:induction false} LooksTimed(m: Math, samples: seq<Sample>)
    ensures Timed(LooksOf(m, samples))
    decreases |samples|
  {
    hide GravityBody, Normalized, Gap;
    if samples != [] {
      LooksTimed(m, samples[..|samples| - 1]);
    }
  }

  lemma NoTimeNoWear(m: Math, cfg: WearConfig, w: Wear, dt: real, g: Vec3)
    ensures dt <= 0.0 ==> WearStep(m, cfg, w, dt, g) == w
  {
  }

  /** What the machine averages is the running mean and the running mean square. */
  lemma {:induction false} Averages(m: Math, cfg: WearConfig, looks: seq<Look>)
    requires Timed(looks) && cfg.window >= 0.0
    ensures var w := WearAfter(m, cfg, looks);
      && w.init == (looks != [])
      && (looks != [] ==> w.gEma == Reference(looks))
      && w.dev2 == MeanSquare(m, cfg.window, looks)
    decreases |looks|
  {
    hide VecAngle, Blend, Weight, Weighted, Rad, Product;
    if looks != [] {
      var before, x := looks[..|looks| - 1], looks[|looks| - 1];
      Averages(m, cfg, before);
      var w := WearAfter(m, cfg, before);
      if before != [] {
        BlendWeighs(w.gEma.x, x.g.x, 0.5, x.dt);
        BlendWeighs(w.gEma.y, x.g.y, 0.5, x.dt);
        BlendWeighs(w.gEma.z, x.g.z, 0.5, x.dt);
      }
      assert WearAfter(m, cfg, looks).gEma == Reference(looks);
      var dev := Deviation(m, looks);
      BlendWeighs(w.dev2, Product(dev, dev), cfg.window, x.dt);
    }
  }

  /** One sample, as the motions tell it. */
  lemma MotionStep(m: Math, cfg: WearConfig, looks: seq<Look>)
    requires Timed(looks) && cfg.window >= 0.0 && looks != []
    ensures var before := looks[..|looks| - 1];
      var w, next := WearAfter(m, cfg, before), WearAfter(m, cfg, looks);
      var ms := MotionsOf(m, cfg.window, looks);
      var x := ms[|looks| - 1];
      var jolt, alive := Jolt(m, x), Alive(m, cfg, x);
      && ms[..|looks| - 1] == MotionsOf(m, cfg.window, before) && x.dt > 0.0
      && next.wornTime == (if !alive then 0.0 else if jolt then x.dt else w.wornTime + x.dt)
      && next.stillTime == (if alive then 0.0 else if jolt then x.dt else w.stillTime + x.dt)
      && (next.worn <==> if alive then (w.worn && !jolt) || next.wornTime >= cfg.wornHold
                         else w.worn && !jolt && next.stillTime < cfg.offHold)
      && next.stable == if next.worn then w.stable + x.dt else 0.0
  {
    hide VecAngle, Rad, Blend, Weight, BlendVec, Weighted, Reference;
    Averages(m, cfg, looks[..|looks| - 1]);
    Averages(m, cfg, looks);
  }

  /** Where the stretch of that kind that reaches the end began; the end itself if there is none. */
  function From(m: Math, cfg: WearConfig, ms: seq<Motion>, alive: bool): (a: nat)
    ensures a <= |ms|
    decreases |ms|
  {
    if ms == [] then 0
    else
      var n := |ms| - 1;
      if Alive(m, cfg, ms[n]) != alive then n + 1
      else if Jolt(m, ms[n]) then n
      else From(m, cfg, ms[..n], alive)
  }

  /** It is such a stretch, and the longest. */
  lemma {:induction false} FromIs(m: Math, cfg: WearConfig, ms: seq<Motion>, alive: bool)
    ensures var a := From(m, cfg, ms, alive); Stretch(m, cfg, ms, a, alive)
    ensures forall b: nat :: b <= |ms| && Stretch(m, cfg, ms, b, alive) ==> From(m, cfg, ms, alive) <= b
    decreases |ms|
  {
    hide Alive, Jolt;
    if ms != [] {
      var n := |ms| - 1;
      FromIs(m, cfg, ms[..n], alive);
      forall b: nat | b <= |ms| && Stretch(m, cfg, ms, b, alive) ensures From(m, cfg, ms, alive) <= b {
        if b <= n {
          assert Alive(m, cfg, ms[n]) == alive;
          assert Stretch(m, cfg, ms[..n], b, alive);
          assert b < n ==> !Jolt(m, ms[n]);
        }
      }
    }
  }

  lemma {:induction false} TimeShrinks(ms: seq<Motion>, a: nat, b: nat)
    requires a <= b && forall k :: 0 <= k < |ms| ==> ms[k].dt > 0.0
    ensures Time(ms, a) >= Time(ms, b)
    decreases |ms|
  {
    if ms != [] {
      TimeShrinks(ms[..|ms| - 1], a, b);
      TimePositive(ms[..|ms| - 1], a);
    }
  }

  lemma {:induction false} TimePositive(ms: seq<Motion>, a: nat)
    requires forall k :: 0 <= k < |ms| ==> ms[k].dt > 0.0
    ensures Time(ms, a) >= 0.0
    decreases |ms|
  {
    if ms != [] {
      TimePositive(ms[..|ms| - 1], a);
    }
  }

  lemma LastedFrom(m: Math, cfg: WearConfig, ms: seq<Motion>, alive: bool, hold: real)
    requires forall k :: 0 <= k < |ms| ==> ms[k].dt > 0.0
    ensures var a := From(m, cfg, ms, alive);
      Lasted(m, cfg, ms, alive, hold) <==> a < |ms| && Time(ms, a) >= hold
  {
    hide Alive, Jolt, From, Time, Stretch;
    FromIs(m, cfg, ms, alive);
    if Lasted(m, cfg, ms, alive, hold) {
      var b: nat :| b < |ms| && Stretch(m, cfg, ms, b, alive) && Time(ms, b) >= hold;
      TimeShrinks(ms, From(m, cfg, ms, alive), b);
    }
  }

  lemma {:induction false} MotionsTimed(m: Math, window: real, looks: seq<Look>)
    requires Timed(looks) && window >= 0.0
    ensures forall k :: 0 <= k < |looks| ==> MotionsOf(m, window, looks)[k].dt > 0.0
    decreases |looks|
  {
    if looks != [] {
      MotionsTimed(m, window, looks[..|looks| - 1]);
    }
  }

  /** The two timers are the lengths of the present stretches. */
  lemma {:induction false} Timers(m: Math, cfg: WearConfig, looks: seq<Look>)
    requires Timed(looks) && cfg.window >= 0.0
    ensures var w, ms := WearAfter(m, cfg, looks), MotionsOf(m, cfg.window, looks);
      && w.wornTime == Time(ms, From(m, cfg, ms, true))
      && w.stillTime == Time(ms, From(m, cfg, ms, false))
    decreases |looks|
  {
    hide WearStep, Alive, Jolt, MotionsOf;
    if looks != [] {
      var n := |looks| - 1;
      Timers(m, cfg, looks[..n]);
      MotionStep(m, cfg, looks);
      NoTime(MotionsOf(m, cfg.window, looks)[..n]);
    } else {
      NoTime([]);
      assert MotionsOf(m, cfg.window, looks) == [];
    }
  }

  lemma NoTime(ms: seq<Motion>)
    ensures Time(ms, |ms|) == 0.0
  {
  }

  /** Worn now, from worn before. */
  lemma WornNext(m: Math, cfg: WearConfig, ms: seq<Motion>)
    requires ms != []
    ensures Worn(m, cfg, ms) <==>
            Lasted(m, cfg, ms, true, cfg.wornHold) ||
            (Worn(m, cfg, ms[..|ms| - 1]) && Trusted(m, cfg, ms, |ms| - 1))
  {
    hide Lasted, Jolt;
    var n, before := |ms| - 1, ms[..|ms| - 1];
    assert forall k :: 0 <= k < n ==> ms[..k + 1] == before[..k + 1] && ms[k] == before[k];
    assert forall k :: 0 <= k < n ==> (Trusted(m, cfg, ms, k) <==> Trusted(m, cfg, before, k));
    assert forall j :: 0 <= j <= n ==> ms[..j] == before[..j];
    assert ms[..n + 1] == ms;
    if j: nat :| WornSince(m, cfg, ms, j) {
      if j <= n {
        assert WornSince(m, cfg, before, j);
      }
    }
    if Lasted(m, cfg, ms, true, cfg.wornHold) {
      assert WornSince(m, cfg, ms, n + 1);
    }
    if Worn(m, cfg, before) && Trusted(m, cfg, ms, n) {
      var j: nat :| WornSince(m, cfg, before, j);
      assert WornSince(m, cfg, ms, j);
    }
  }

  /** The tracker counts as worn if and only if, on some sample, gravity had been alive without a
      jolt for the holding time, and since then there was neither a jolt nor a stillness of the
      other holding time. */
  lemma {:induction false} WornIff(m: Math, cfg: WearConfig, looks: seq<Look>)
    requires Timed(looks) && cfg.window >= 0.0
    ensures WearAfter(m, cfg, looks).worn <==> Worn(m, cfg, MotionsOf(m, cfg.window, looks))
    decreases |looks|
  {
    hide WearAfter, MotionsOf, Alive, Jolt, Lasted, Worn, Time;
    var ms := MotionsOf(m, cfg.window, looks);
    if looks == [] {
      NotWornYet(m, cfg, looks);
    } else {
      var n := |looks| - 1;
      WornIff(m, cfg, looks[..n]);
      MotionStep(m, cfg, looks);
      WornNext(m, cfg, ms);
      MotionsTimed(m, cfg.window, looks);
      Timers(m, cfg, looks);
      LastedFrom(m, cfg, ms, true, cfg.wornHold);
      LastedFrom(m, cfg, ms, false, cfg.offHold);
      assert ms[..n + 1] == ms;
    }
  }

  lemma NotWornYet(m: Math, cfg: WearConfig, looks: seq<Look>)
    requires looks == [] && cfg.window >= 0.0
    ensures !WearAfter(m, cfg, looks).worn && !Worn(m, cfg, MotionsOf(m, cfg.window, looks))
  {
  }

  /** Since the c-th motion the tracker has been worn without a break. */
  ghost predicate Unbroken(m: Math, cfg: WearConfig, ms: seq<Motion>, c: nat) {
    && c <= |ms| && !Worn(m, cfg, ms[..c])
    && forall k :: c < k <= |ms| ==> Worn(m, cfg, ms[..k])
  }

  /** The time worn, which the tap action asks for, is how long that has lasted. */
  lemma {:induction false} StableTime(m: Math, cfg: WearConfig, looks: seq<Look>) returns (c: nat)
    requires Timed(looks) && cfg.window >= 0.0
    ensures var ms := MotionsOf(m, cfg.window, looks);
      Unbroken(m, cfg, ms, c) && WearAfter(m, cfg, looks).stable == Time(ms, c)
    decreases |looks|
  {
    hide WearAfter, MotionsOf, Alive, Jolt, Worn;
    var ms := MotionsOf(m, cfg.window, looks);
    WornIff(m, cfg, looks);
    assert ms[..|ms|] == ms;
    if looks == [] {
      c := 0;
      NotWornYet(m, cfg, looks);
      StartStable(m, cfg, looks);
    } else {
      var n := |looks| - 1;
      c := StableTime(m, cfg, looks[..n]);
      MotionStep(m, cfg, looks);
      assert forall k :: 0 <= k <= n ==> ms[..k] == ms[..n][..k];
      if !WearAfter(m, cfg, looks).worn {
        c := n + 1;
        NoTime(ms);
      }
    }
  }

  lemma StartStable(m: Math, cfg: WearConfig, looks: seq<Look>)
    requires looks == []
    ensures WearAfter(m, cfg, looks).stable == 0.0
  {
  }

  /** So it is on every run of the whole tracker. */
  lemma RunWorn(m: Math, cfg: Config, samples: seq<Sample>)
    requires m.pi > 0.0 && cfg.wear.window >= 0.0
    ensures var looks := LooksOf(m, samples);
      Timed(looks) &&
      (Run(m, cfg, START, samples).wear.worn <==> Worn(m, cfg.wear, MotionsOf(m, cfg.wear.window, looks)))
  {
    hide MotionsOf, WearAfter, LooksOf, Run, Worn;
    LooksTimed(m, samples);
    RunWear(m, cfg, samples);
    WornIff(m, cfg.wear, LooksOf(m, samples));
  }

  // ---- a unit that lies still -------------------------------------------------------------------

  lemma Lagrange(a: Vec3, b: Vec3)
    ensures Product(Dotted(a, b), Dotted(a, b)) + Size2(Crossed(a, b)) == Product(Size2(a), Size2(b))
  {
  }

  lemma NormSquared(m: Math, a: Vec3)
    requires Lawful(m)
    ensures Product(VecNorm(m, a), VecNorm(m, a)) == Size2(a) && VecNorm(m, a) >= 0.0
  {
    hide Lawful;
    assert Size2(a) == Product(a.x, a.x) + Product(a.y, a.y) + Product(a.z, a.z);
    hide Size2;
    ProductSign(a.x, a.x);
    ProductSign(a.y, a.y);
    ProductSign(a.z, a.z);
    RootAt(m, Size2(a));
  }

  lemma SquareOfProduct(x: real, y: real)
    ensures Product(Product(x, y), Product(x, y)) == Product(Product(x, x), Product(y, y))
  {
  }

  lemma Shrunk(d: real, c: real, n: real)
    requires n > 0.0 && Product(d, d) + Product(c, c) == Product(n, n)
    ensures Length2(Complex(d / n, c / n)) == 1.0 && Grown(Complex(d / n, c / n), n) == Complex(d, c)
  {
    var x, y := d / n, c / n;
    assert x * n == d && y * n == c;
    assert (x * x + y * y) * (n * n) == (x * n) * (x * n) + (y * n) * (y * n);
    assert (x * x + y * y - 1.0) * (n * n) == 0.0;
    ProductSign(n, n);
    Cancelled(x * x + y * y - 1.0, n * n);
  }

  lemma Cancelled(e: real, k: real)
    requires k > 0.0 && e * k == 0.0
    ensures e == 0.0
  {
  }

  lemma RootOne(m: Math)
    requires Lawful(m)
    ensures m.root(1.0) == 1.0
  {
    hide Lawful;
    RootAt(m, 1.0);
    var r := m.root(1.0);
    assert (r - 1.0) * (r + 1.0) == 0.0;
    Cancelled(r - 1.0, r + 1.0);
  }

  lemma UnitAlong(m: Math, p: Complex)
    requires Lawful(m) && Length2(p) == 1.0
    ensures -m.pi <= Argument(m, p) <= m.pi && Direction(m, Argument(m, p)) == p
  {
    hide Lawful, Length2, Direction, Argument;
    NonZero(p);
    PolarAt(m, p);
    RootOne(m);
  }

  /** The code's angle between two vectors that are not tiny has the cosine of their scalar product
      over their lengths, and the sine of the length of their vector product over them. */
  lemma VecAngleIs(m: Math, a: Vec3, b: Vec3)
    requires Lawful(m) && VecNorm(m, a) >= 0.000000001 && VecNorm(m, b) >= 0.000000001
    ensures var n := Product(VecNorm(m, a), VecNorm(m, b));
      && n > 0.0 && -m.pi <= VecAngle(m, a, b) <= m.pi
      && Grown(Direction(m, VecAngle(m, a, b)), n) == Complex(Dotted(a, b), VecNorm(m, Crossed(a, b)))
  {
    hide Lawful, Size2, Grown, Direction, Product, Dotted, Crossed, VecNorm, Argument, VecAngle, Length2;
    var n, d, c := Product(VecNorm(m, a), VecNorm(m, b)), Dotted(a, b), VecNorm(m, Crossed(a, b));
    ProductSign(VecNorm(m, a), VecNorm(m, b));
    NormSquared(m, a);
    NormSquared(m, b);
    NormSquared(m, Crossed(a, b));
    Lagrange(a, b);
    SquareOfProduct(VecNorm(m, a), VecNorm(m, b));
    Shrunk(d, c, n);
    UnitAlong(m, Complex(d / n, c / n));
    AngleTerms(m, a, b);
  }

  lemma AngleTerms(m: Math, a: Vec3, b: Vec3)
    requires VecNorm(m, a) >= 0.000000001 && VecNorm(m, b) >= 0.000000001
    requires Product(VecNorm(m, a), VecNorm(m, b)) > 0.0
    ensures var n := Product(VecNorm(m, a), VecNorm(m, b));
      VecAngle(m, a, b) == Argument(m, Complex(Dotted(a, b) / n, VecNorm(m, Crossed(a, b)) / n))
  {
    hide VecNorm, Product, Dotted, Crossed;
  }

  lemma NoAngle(m: Math, g: Vec3)
    requires Lawful(m)
    ensures VecAngle(m, g, g) == 0.0
  {
    hide Lawful, Direction, Product, VecNorm, Size2, Crossed, Dotted, VecAngle, Grown;
    if VecNorm(m, g) >= 0.000000001 {
      VecAngleIs(m, g, g);
      NormSquared(m, g);
      NoCross(m, g);
      Along(Direction(m, VecAngle(m, g, g)), Size2(g));
      FullCircle(m, VecAngle(m, g, g));
    } else {
      TinyAngle(m, g);
    }
  }

  lemma TinyAngle(m: Math, g: Vec3)
    requires VecNorm(m, g) < 0.000000001
    ensures VecAngle(m, g, g) == 0.0
  {
  }

  lemma RootNone(m: Math)
    requires Lawful(m)
    ensures m.root(0.0) == 0.0
  {
    hide Lawful;
    RootAt(m, 0.0);
    var r := m.root(0.0);
    if r > 0.0 {
      ProductSign(r, r);
    }
  }

  lemma NoCross(m: Math, g: Vec3)
    requires Lawful(m)
    ensures Dotted(g, g) == Size2(g) && VecNorm(m, Crossed(g, g)) == 0.0
  {
    hide Lawful, Dotted, Crossed, Size2;
    RootNone(m);
    ProductsWithItself(g);
  }

  lemma ProductsWithItself(g: Vec3)
    ensures Dotted(g, g) == Size2(g) && Size2(Crossed(g, g)) == 0.0
  {
    DotSelf(g);
    hide Size2, Dotted, Crossed;
    CrossSelf(g);
    SizeNone(Crossed(g, g));
  }

  lemma DotSelf(g: Vec3)
    ensures Dotted(g, g) == Size2(g)
  {
  }

  lemma CrossSelf(g: Vec3)
    ensures Crossed(g, g) == Vec3(0.0, 0.0, 0.0)
  {
    CrossParts(g, g);
    NothingLeft(g.y, g.z);
    NothingLeft(g.z, g.x);
    NothingLeft(g.x, g.y);
    hide Crossed, Product;
  }

  lemma CrossParts(a: Vec3, b: Vec3)
    ensures Crossed(a, b) == Vec3(Product(a.y, b.z) - Product(a.z, b.y), Product(a.z, b.x) - Product(a.x, b.z),
                                  Product(a.x, b.y) - Product(a.y, b.x))
  {
  }

  lemma NothingLeft(x: real, y: real)
    ensures Product(x, y) - Product(y, x) == 0.0
  {
  }

  lemma SizeNone(c: Vec3)
    requires c.x == 0.0 && c.y == 0.0 && c.z == 0.0
    ensures Size2(c) == 0.0
  {
  }

  lemma Along(d: Complex, n: real)
    requires n > 0.0 && Grown(d, n) == Complex(n, 0.0)
    ensures d == Complex(1.0, 0.0)
  {
    Cancelled(d.re - 1.0, n);
    Cancelled(d.im, n);
  }

  lemma FullCircle(m: Math, x: real)
    requires Lawful(m) && -m.pi <= x <= m.pi && Direction(m, x) == Complex(1.0, 0.0)
    ensures x == 0.0
  {
    hide Lawful, Times, Length2;
    LawsAt(m, x, x);
  }

  /** All the looks see the same gravity. */
  predicate Resting(looks: seq<Look>) {
    forall k :: 0 <= k < |looks| ==> looks[k].g == looks[0].g
  }

  lemma {:induction false} RestingReference(m: Math, window: real, looks: seq<Look>)
    requires Lawful(m) && Timed(looks) && window >= 0.0 && Resting(looks)
    ensures looks != [] ==> Reference(looks) == looks[0].g && Deviation(m, looks) == 0.0
    ensures MeanSquare(m, window, looks) == 0.0
    ensures forall k :: 0 <= k < |looks| ==> MotionsOf(m, window, looks)[k].rms == 0.0
    decreases |looks|
  {
    hide Lawful, VecAngle, Weighted;
    if looks != [] {
      var n := |looks| - 1;
      var g, dt := looks[0].g, looks[n].dt;
      RestingReference(m, window, looks[..n]);
      WeightedSame(g.x, 0.5, dt);
      WeightedSame(g.y, 0.5, dt);
      WeightedSame(g.z, 0.5, dt);
      WeightedSame(0.0, window, dt);
      NoAngle(m, g);
      RootNone(m);
    }
  }

  lemma WeightedSame(x: real, tau: real, dt: real)
    requires tau + dt > 0.0
    ensures Weighted(x, tau, x, dt) == x
  {
    assert tau * x + dt * x == x * (tau + dt);
    Quotient(x, tau + dt, tau * x + dt * x);
  }

  /** A unit that lies still, whatever its pose and however long, is never taken for worn; neither is
      it on any run of the whole tracker on which gravity does not move. */
  lemma StillNotWorn(m: Math, cfg: Config, samples: seq<Sample>)
    requires Lawful(m) && m.pi > 0.0 && cfg.wear.window >= 0.0 && cfg.wear.aliveMinDeg >= 0.0
    requires Resting(LooksOf(m, samples))
    ensures !Run(m, cfg, START, samples).wear.worn
  {
    hide Lawful, MotionsOf, WearAfter, LooksOf, Run, Rad;
    var looks := LooksOf(m, samples);
    LooksTimed(m, samples);
    RunWear(m, cfg, samples);
    WornIff(m, cfg.wear, looks);
    RestingReference(m, cfg.wear.window, looks);
    var ms := MotionsOf(m, cfg.wear.window, looks);
    RadPositive(m, cfg.wear.aliveMinDeg);
    if Worn(m, cfg.wear, ms) {
      WornAlive(m, cfg.wear, ms);
    }
  }

  lemma WornAlive(m: Math, cfg: WearConfig, ms: seq<Motion>)
    requires Worn(m, cfg, ms)
    ensures exists k :: 0 <= k < |ms| && Alive(m, cfg, ms[k])
  {
    hide Alive, Trusted;
    var j: nat :| WornSince(m, cfg, ms, j);
    var a: nat :| a < j && Stretch(m, cfg, ms[..j], a, true);
    assert Alive(m, cfg, ms[..j][a]);
    assert ms[a] == ms[..j][a];
  }

  lemma RadPositive(m: Math, deg: real)
    requires m.pi > 0.0 && deg >= 0.0
    ensures Rad(m, deg) >= 0.0
  {
    ProductSign(deg, m.pi / 180.0);
    assert Rad(m, deg) == Product(deg, m.pi / 180.0);
  }
}
