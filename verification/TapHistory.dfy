/** What a tap does, over whole runs of host/libheadtracker/src/stabilizer.cpp:122-147 and 222-233:
    which taps count, and when a tap recenters. Everything is stated on the samples. */
module TapHistory {
  import opened Wire
  import opened Angles
  import opened Orientation
  import opened Stabilizer
  import WearHistory

  /** One finite sample: the tap flag, the time since the one before it (none after a gap), whether
      the tracker had been worn long enough for a tap to act, and whether the head is slow. */
  datatype Press = Press(now: bool, dt: real, may: bool, slow: bool)

  /** How long the presses from the j-th on lasted. */
  function Since(ps: seq<Press>, j: nat): (t: real)
    decreases |ps|
  {
    if |ps| <= j then 0.0 else Since(ps[..|ps| - 1], j) + ps[|ps| - 1].dt
  }

  ghost predicate Timed(ps: seq<Press>) {
    forall k :: 0 <= k < |ps| ==> ps[k].dt >= 0.0
  }

  /** The last press counts: the flag rose on it, and no press that counted is less than the
      refractory time ago. */
  ghost predicate Tapped(cfg: TapConfig, ps: seq<Press>)
    decreases |ps|
  {
    && |ps| >= 2 && ps[|ps| - 1].now && !ps[|ps| - 2].now
    && forall j :: 0 < j < |ps| && Tapped(cfg, ps[..j]) ==> Since(ps, j) >= cfg.refractory
  }

  ghost function Taps(cfg: TapConfig, ps: seq<Press>): (n: nat)
    decreases |ps|
  {
    if ps == [] then 0 else Taps(cfg, ps[..|ps| - 1]) + if Tapped(cfg, ps) then 1 else 0
  }

  /** The last press counts and asks for a recenter. */
  ghost predicate Arms(cfg: TapConfig, ps: seq<Press>) {
    Tapped(cfg, ps) && cfg.recenters && ps[|ps| - 1].may
  }

  ghost predicate LastArmed(cfg: TapConfig, ps: seq<Press>, j: nat) {
    && 0 < j <= |ps| && Arms(cfg, ps[..j])
    && forall i :: j < i <= |ps| ==> !Arms(cfg, ps[..i])
  }

  /** From the press that asked up to the n-th, the head kept moving and the time was not up. */
  ghost predicate Waits(cfg: TapConfig, ps: seq<Press>, j: nat, n: nat)
    requires 0 < j && n <= |ps|
  {
    forall i :: j - 1 <= i < n ==> Moves(cfg, ps, j, i)
  }

  ghost predicate Moves(cfg: TapConfig, ps: seq<Press>, j: nat, i: nat)
    requires 0 < j && i < |ps|
  {
    !ps[i].slow && Since(ps[..i + 1], j - 1) < cfg.settleTimeout
  }

  /** A recenter is due. */
  ghost predicate Pending(cfg: TapConfig, ps: seq<Press>) {
    exists j: nat :: LastArmed(cfg, ps, j) && Waits(cfg, ps, j, |ps|)
  }

  /** The last press recenters: the first on which the head is slow, or the time is up. */
  ghost predicate Fires(cfg: TapConfig, ps: seq<Press>) {
    ps != [] && cfg.settleTimeout >= 0.0 &&
    exists j: nat :: LastArmed(cfg, ps, j) && Waits(cfg, ps, j, |ps| - 1) &&
                     (ps[|ps| - 1].slow || Since(ps, j - 1) >= cfg.settleTimeout)
  }

  // ---- the machine ------------------------------------------------------------------------------

  /** What the machine makes of one press; the wear state is any that lets a tap act as it says. */
  function Turn(m: Math, cfg: TapConfig, tap: Tap, wear: Wear, rate: real, now: bool, dt: real): (next: Tap) {
    TapSettled(m, cfg, TapStep(cfg, tap, wear, now, dt), rate, dt)
  }

  /** The machine after some presses, as its fields say it. */
  ghost predicate Says(cfg: TapConfig, ps: seq<Press>, tap: Tap) {
    && tap.taps == Taps(cfg, ps)
    && (tap.seeded <==> ps != []) && (ps != [] ==> tap.prev == ps[|ps| - 1].now)
    && (forall j :: 0 < j <= |ps| && Tapped(cfg, ps[..j]) ==>
          Since(ps, j) >= cfg.refractory - (if tap.refractoryLeft > 0.0 then tap.refractoryLeft else 0.0))
    && (tap.refractoryLeft > 0.0 ==>
          exists j :: 0 < j <= |ps| && Tapped(cfg, ps[..j]) && Since(ps, j) == cfg.refractory - tap.refractoryLeft)
    && Awaits(cfg, ps, tap.settleLeft)
  }

  ghost predicate Awaits(cfg: TapConfig, ps: seq<Press>, left: real) {
    && (left >= 0.0 <==> Pending(cfg, ps))
    && (forall j: nat :: left >= 0.0 && LastArmed(cfg, ps, j) ==>
          left == cfg.settleTimeout - Since(ps, j - 1))
  }

  lemma Prefixes(ps: seq<Press>, p: Press)
    ensures (ps + [p])[..|ps|] == ps && (ps + [p])[..|ps| + 1] == ps + [p]
    ensures forall j :: 0 <= j <= |ps| ==> (ps + [p])[..j] == ps[..j]
    ensures forall j: nat :: j <= |ps| ==> Since(ps + [p], j) == Since(ps, j) + p.dt
    ensures Since(ps + [p], |ps| + 1) == 0.0
  {
  }

  lemma {:induction false} SincePositive(ps: seq<Press>, j: nat)
    requires Timed(ps)
    ensures Since(ps, j) >= 0.0
    decreases |ps|
  {
    if ps != [] {
      SincePositive(ps[..|ps| - 1], j);
    }
  }

  /** Counting: the edge test and the refractory timer find exactly the presses that count. */
  lemma CountsTaps(cfg: TapConfig, ps: seq<Press>, tap: Tap, wear: Wear, p: Press)
    requires Timed(ps) && p.dt >= 0.0 && Says(cfg, ps, tap)
    ensures var next, more := TapStep(cfg, tap, wear, p.now, p.dt), ps + [p];
      && (next.taps == tap.taps + 1 <==> Tapped(cfg, more))
      && (next.taps == tap.taps <==> !Tapped(cfg, more))
      && next.taps == Taps(cfg, more) && next.seeded && next.prev == p.now
      && (forall j :: 0 < j <= |more| && Tapped(cfg, more[..j]) ==>
            Since(more, j) >= cfg.refractory - (if next.refractoryLeft > 0.0 then next.refractoryLeft else 0.0))
      && (next.refractoryLeft > 0.0 ==>
            exists j :: 0 < j <= |more| && Tapped(cfg, more[..j]) && Since(more, j) == cfg.refractory - next.refractoryLeft)
  {
    hide Since, Awaits;
    Prefixes(ps, p);
    var more, next := ps + [p], TapStep(cfg, tap, wear, p.now, p.dt);
    var left := if tap.refractoryLeft > 0.0 then tap.refractoryLeft - p.dt else tap.refractoryLeft;
    forall j | 0 < j <= |ps| && Tapped(cfg, ps[..j])
      ensures Since(more, j) >= cfg.refractory - (if left > 0.0 then left else 0.0)
    {
      assert Since(ps, j) >= cfg.refractory - (if tap.refractoryLeft > 0.0 then tap.refractoryLeft else 0.0);
    }
    if left > 0.0 {
      var j :| 0 < j <= |ps| && Tapped(cfg, ps[..j]) && Since(ps, j) == cfg.refractory - tap.refractoryLeft;
      assert Since(more, j) == cfg.refractory - left && more[..j] == ps[..j];
      assert !Tapped(cfg, more);
    } else {
      assert Tapped(cfg, more) <==> ps != [] && p.now && !ps[|ps| - 1].now;
    }
    if Tapped(cfg, more) {
      assert more[..|more|] == more;
    }
  }

  /** Which press asked last, when the newest did not. */
  lemma StillLast(cfg: TapConfig, ps: seq<Press>, p: Press)
    requires !Arms(cfg, ps + [p])
    ensures forall j: nat :: LastArmed(cfg, ps + [p], j) <==> LastArmed(cfg, ps, j)
  {
    hide Arms;
    Prefixes(ps, p);
    var more := ps + [p];
    forall j: nat ensures LastArmed(cfg, more, j) <==> LastArmed(cfg, ps, j) {
      if LastArmed(cfg, ps, j) {
        assert forall i :: j < i <= |more| ==> !Arms(cfg, more[..i]);
      }
      if LastArmed(cfg, more, j) {
        assert j <= |ps|;
        assert forall i :: j < i <= |ps| ==> !Arms(cfg, ps[..i]);
      }
    }
  }

  lemma NowLast(cfg: TapConfig, ps: seq<Press>, p: Press)
    requires Arms(cfg, ps + [p])
    ensures forall j: nat :: LastArmed(cfg, ps + [p], j) <==> j == |ps| + 1
  {
    hide Arms;
    Prefixes(ps, p);
  }

  lemma OneLast(cfg: TapConfig, ps: seq<Press>, i: nat, j: nat)
    requires LastArmed(cfg, ps, i) && LastArmed(cfg, ps, j)
    ensures i == j
  {
    hide Arms;
  }

  lemma WaitsOn(cfg: TapConfig, ps: seq<Press>, p: Press, j: nat)
    requires 0 < j <= |ps| + 1
    ensures j <= |ps| ==> (Waits(cfg, ps + [p], j, |ps|) <==> Waits(cfg, ps, j, |ps|))
    ensures j == |ps| + 1 ==> Waits(cfg, ps + [p], j, |ps|)
    ensures Waits(cfg, ps + [p], j, |ps| + 1) <==>
            (j <= |ps| ==> Waits(cfg, ps, j, |ps|)) && !p.slow && Since(ps + [p], j - 1) < cfg.settleTimeout
  {
    hide Since;
    Prefixes(ps, p);
    var more := ps + [p];
    forall i | 0 <= i < |ps| ensures Moves(cfg, more, j, i) == Moves(cfg, ps, j, i) {
      assert more[..i + 1] == ps[..i + 1] && more[i] == ps[i];
    }
    assert more[|ps|] == p && more[..|ps| + 1] == more;
    assert Moves(cfg, more, j, |ps|) <==> !p.slow && Since(more, j - 1) < cfg.settleTimeout;
    hide Moves;
  }

  lemma ArmedTurn(m: Math, cfg: TapConfig, ps: seq<Press>, mid: Tap, rate: real, p: Press)
    requires p.dt >= 0.0 && p.slow == (rate < Rad(m, cfg.settleMaxDeg))
    requires Arms(cfg, ps + [p]) && mid.settleLeft == cfg.settleTimeout
    ensures Settles(m, cfg, mid, rate, p.dt) <==> Fires(cfg, ps + [p])
    ensures Awaits(cfg, ps + [p], TapSettled(m, cfg, mid, rate, p.dt).settleLeft)
  {
    hide Since, Arms, Rad, LastArmed, Waits;
    var more, n := ps + [p], |ps|;
    assert more[n] == p;
    NowLast(cfg, ps, p);
    WaitsOn(cfg, ps, p, n + 1);
    ArmedHere(cfg, ps, p);
    assert LastArmed(cfg, more, n + 1) && Waits(cfg, more, n + 1, n);
  }

  lemma WaitingTurn(m: Math, cfg: TapConfig, ps: seq<Press>, mid: Tap, rate: real, p: Press)
    requires Timed(ps) && p.slow == (rate < Rad(m, cfg.settleMaxDeg))
    requires !Arms(cfg, ps + [p]) && Awaits(cfg, ps, mid.settleLeft)
    ensures Settles(m, cfg, mid, rate, p.dt) <==> Fires(cfg, ps + [p])
    ensures Awaits(cfg, ps + [p], TapSettled(m, cfg, mid, rate, p.dt).settleLeft)
  {
    hide Since, Arms, Rad, LastArmed, Waits, Timed;
    var more, n := ps + [p], |ps|;
    assert more[n] == p;
    Prefixes(ps, p);
    StillLast(cfg, ps, p);
    if j: nat :| LastArmed(cfg, ps, j) {
      forall i: nat | LastArmed(cfg, ps, i) ensures i == j { OneLast(cfg, ps, i, j); }
      LastIn(cfg, ps, j);
      WaitsOn(cfg, ps, p, j);
      SincePositive(ps, j - 1);
    }
  }

  lemma LastIn(cfg: TapConfig, ps: seq<Press>, j: nat)
    requires LastArmed(cfg, ps, j)
    ensures 0 < j <= |ps|
  {
  }

  /** One sample: the machine recenters exactly when a recenter fires, and goes on saying what the
      presses say. */
  lemma TurnSays(m: Math, cfg: TapConfig, ps: seq<Press>, tap: Tap, wear: Wear, rate: real, p: Press)
    requires Timed(ps) && p.dt >= 0.0 && Says(cfg, ps, tap)
    requires p.may == (wear.worn && wear.stable >= cfg.minWorn) && p.slow == (rate < Rad(m, cfg.settleMaxDeg))
    ensures Says(cfg, ps + [p], Turn(m, cfg, tap, wear, rate, p.now, p.dt))
    ensures Settles(m, cfg, TapStep(cfg, tap, wear, p.now, p.dt), rate, p.dt) <==> Fires(cfg, ps + [p])
  {
    hide Since, Tapped, Taps, Rad, Timed, Awaits, Fires, Settles;
    CountsTaps(cfg, ps, tap, wear, p);
    var more, mid := ps + [p], TapStep(cfg, tap, wear, p.now, p.dt);
    assert more[|ps|] == p;
    if Arms(cfg, more) {
      ArmedTurn(m, cfg, ps, mid, rate, p);
    } else {
      WaitingTurn(m, cfg, ps, mid, rate, p);
    }
  }

  lemma ArmedHere(cfg: TapConfig, ps: seq<Press>, p: Press)
    ensures Since(ps + [p], |ps|) == p.dt
  {
    Prefixes(ps, p);
    NoneSince(ps);
  }

  lemma NoneSince(ps: seq<Press>)
    ensures Since(ps, |ps|) == 0.0
  {
  }

  // ---- on runs of the tracker -------------------------------------------------------------------

  /** The last finite pose. */
  function LastPose(m: Math, samples: seq<Sample>): (q: Option<Quat>)
    decreases |samples|
  {
    if samples == [] then None
    else
      var o := samples[|samples| - 1];
      if o.q.Some? then Some(Normalized(m, o.q.value)) else LastPose(m, samples[..|samples| - 1])
  }

  /** The seconds since the last finite sample; none at the start and after a gap of over 0.1 s. */
  function Lapse(samples: seq<Sample>, t: int): (dt: real) {
    var last := WearHistory.LastTime(samples);
    if last.Some? && WearHistory.Gap(last.value, t) <= 0.1 then WearHistory.Gap(last.value, t) else 0.0
  }

  /** The angle from one pose to the next over the time between them. */
  function Speed(m: Math, last: Option<Quat>, q: Quat, dt: real): (rate: real) {
    if last.None? || dt <= 0.0 then 0.0
    else
      var c := Abs(Dot4(last.value, q));
      2.0 * m.acos(if c > 1.0 then 1.0 else c) / dt
  }

  function PressOf(m: Math, cfg: Config, before: seq<Sample>, o: Sample): (p: Press)
    requires m.pi > 0.0 && o.q.Some?
  {
    var dt, wear := Lapse(before, o.t), Run(m, cfg, START, before).wear;
    Press(o.tap, dt, wear.worn && wear.stable >= cfg.tap.minWorn,
          Speed(m, LastPose(m, before), Normalized(m, o.q.value), dt) < Rad(m, cfg.tap.settleMaxDeg))
  }

  function PressesOf(m: Math, cfg: Config, samples: seq<Sample>): (ps: seq<Press>)
    requires m.pi > 0.0
    decreases |samples|
  {
    if samples == [] then []
    else
      var before, o := samples[..|samples| - 1], samples[|samples| - 1];
      PressesOf(m, cfg, before) + if o.q.Some? then [PressOf(m, cfg, before, o)] else []
  }

  lemma SpeedIs(m: Math, last: Option<Quat>, q: Quat, dt: real)
    ensures Rate(m, last, q, dt) == Speed(m, last, q, dt)
  {
    if last.Some? {
      assert Multiply(Conjugate(last.value), q).w == Dot4(last.value, q);
      hide Multiply, Dot4;
    }
  }

  lemma TapOfStep(m: Math, cfg: Config, s: State, o: Sample)
    requires m.pi > 0.0 && o.q.Some?
    ensures var q, dt := Normalized(m, o.q.value), Dt(s.clock, o.t);
      && Step(m, cfg, s, o).tap == Turn(m, cfg.tap, s.tap, s.wear, Rate(m, s.prev, q, dt), o.tap, dt)
      && Step(m, cfg, s, o).prev == Some(q)
  {
    hide WearStep, GravityBody, Normalized, Dt, Applied, FrameCentered, CenterMean, FrameAsked, MeanAsked, TapStep,
      TapSettled, Rate, Levels, NextTilt, Averaged;
  }

  lemma DtIs(clock: Clock, samples: seq<Sample>, t: int)
    requires clock.haveT == WearHistory.LastTime(samples).Some?
    requires clock.haveT ==> clock.lastT == WearHistory.LastTime(samples).value
    ensures Dt(clock, t) == Lapse(samples, t)
  {
  }

  /** On every run: the tap counter counts exactly the rising edges of the flag outside the refractory
      time; a recenter is pending exactly while one of them, on a tracker worn long enough, waits for
      the head to slow down or for its time to run out; and the next finite sample recenters on its
      account exactly if it ends that wait. */
  lemma {:induction false} RunTaps(m: Math, cfg: Config, samples: seq<Sample>)
    requires m.pi > 0.0
    ensures var s, ps := Run(m, cfg, START, samples), PressesOf(m, cfg, samples);
      && Timed(ps) && Says(cfg.tap, ps, s.tap) && s.prev == LastPose(m, samples)
    decreases |samples|
  {
    hide Step, Rate, Speed, PressOf, Says, Turn, Normalized, START;
    if samples == [] {
      NothingYet(m, cfg);
    } else {
      var before, o := samples[..|samples| - 1], samples[|samples| - 1];
      RunTaps(m, cfg, before);
      if o.q.Some? {
        NextPress(m, cfg, before, o);
      } else {
        Dropped(m, cfg, Run(m, cfg, START, before), o);
        assert PressesOf(m, cfg, samples) == PressesOf(m, cfg, before);
      }
    }
  }

  /** The next finite sample recenters on account of a tap exactly if a recenter fires on it. */
  lemma RecenterIff(m: Math, cfg: Config, before: seq<Sample>, o: Sample)
    requires m.pi > 0.0 && o.q.Some?
    ensures var s := Run(m, cfg, START, before);
      SettlesOn(m, cfg, s, o) <==> Fires(cfg.tap, PressesOf(m, cfg, before + [o]))
  {
    hide Step, Rate, Speed, PressOf, Says, Turn, Normalized, START, Settles, Run, Fires;
    var all := before + [o];
    assert all[..|all| - 1] == before && all[|all| - 1] == o;
    RunTaps(m, cfg, before);
    NextPress(m, cfg, before, o);
  }

  lemma NextPress(m: Math, cfg: Config, before: seq<Sample>, o: Sample)
    requires m.pi > 0.0 && o.q.Some?
    requires Timed(PressesOf(m, cfg, before)) && Says(cfg.tap, PressesOf(m, cfg, before), Run(m, cfg, START, before).tap)
    requires Run(m, cfg, START, before).prev == LastPose(m, before)
    ensures var s, ps, p := Run(m, cfg, START, before), PressesOf(m, cfg, before), PressOf(m, cfg, before, o);
      var q, dt := Normalized(m, o.q.value), Lapse(before, o.t);
      && p.dt >= 0.0 && Dt(s.clock, o.t) == dt
      && Says(cfg.tap, ps + [p], Step(m, cfg, s, o).tap) && Step(m, cfg, s, o).prev == Some(q)
      && (Settles(m, cfg.tap, TapStep(cfg.tap, s.tap, s.wear, o.tap, dt), Rate(m, s.prev, q, dt), dt) <==>
          Fires(cfg.tap, ps + [p]))
  {
    hide Step, Rate, Speed, Says, Turn, Normalized, START, Fires, Settles, TapStep, Run, PressesOf, Timed, Rad;
    var s, ps, p := Run(m, cfg, START, before), PressesOf(m, cfg, before), PressOf(m, cfg, before, o);
    var q, dt := Normalized(m, o.q.value), Lapse(before, o.t);
    WearHistory.RunWear(m, cfg, before);
    DtIs(s.clock, before, o.t);
    SpeedIs(m, s.prev, q, dt);
    TapOfStep(m, cfg, s, o);
    TurnSays(m, cfg.tap, ps, s.tap, s.wear, Rate(m, s.prev, q, dt), p);
  }

  lemma NothingYet(m: Math, cfg: Config)
    ensures Timed([]) && Says(cfg.tap, [], START.tap) && START.prev == None
  {
  }

  lemma Dropped(m: Math, cfg: Config, s: State, o: Sample)
    requires m.pi > 0.0 && o.q.None?
    ensures Step(m, cfg, s, o).tap == s.tap && Step(m, cfg, s, o).prev == s.prev
  {
  }
}
