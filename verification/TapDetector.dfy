/** The double-tap detector of firmware/common/imu/htk_tapdet.c.

    A front end turns each acceleration into "spike" and "quiet"; a four-phase machine on
    wrapping 32-bit microsecond timestamps turns those into events. The history theorems
    speak of the true times behind the timestamps. */
module TapDetector {

  const WRAP: nat := 0x1_0000_0000
  const HALF: nat := 0x8000_0000

  type u16 = x: int | 0 <= x < 0x1_0000
  type u32 = x: int | 0 <= x < 0x1_0000_0000

  datatype Config = Config(spikeThs: real, rearmThs: real, baselineTau: real,
                           shockMaxMs: u16, gapMinMs: u16, gapMaxMs: u16, refractoryMs: u16)

  datatype Signal = Signal(spike: bool, quiet: bool)

  datatype Phase = Idle | Shock1 | Gap | Refractory

  datatype Machine = Machine(phase: Phase, mark: u32)

  datatype Front = Front(baseline: real, primed: bool, warmup: nat)

  function Abs(x: real): (y: real) {
    if x < 0.0 then -x else x
  }

  function Toward(b: real, alpha: real, mag: real): (next: real) {
    b + alpha * (mag - b)
  }

  /** The moving baseline, and what one magnitude is relative to it. During warm-up a
      sample is neither spike nor quiet. */
  function Sensed(front: Front, cfg: Config, alpha: real, mag: real): (r: (Front, Signal)) {
    var baseline := Toward(front.baseline, alpha, mag);
    if !front.primed && front.warmup > 0 then
      (Front(baseline, false, front.warmup - 1), Signal(false, false))
    else
      var dev := Abs(mag - baseline);
      (Front(baseline, true, front.warmup), Signal(dev > cfg.spikeThs, dev < cfg.rearmThs))
  }

  /** Milliseconds from one timestamp to another, floored, across one wrap. */
  function MsSince(now: u32, then_: u32): (ms: nat) {
    (now - then_) % WRAP / 1000
  }

  function Moved(m: Machine, cfg: Config, t: u32, sig: Signal): (r: (Machine, bool)) {
    match m.phase
    case Idle =>
      (if sig.spike then Machine(Shock1, t) else m, false)
    case Shock1 =>
      if sig.quiet then (Machine(Gap, t), false)
      else (if MsSince(t, m.mark) > cfg.shockMaxMs then Machine(Idle, m.mark) else m, false)
    case Gap =>
      var gap := MsSince(t, m.mark);
      if sig.spike then
        if gap < cfg.gapMinMs then (Machine(Shock1, t), false)
        else if gap <= cfg.gapMaxMs then (Machine(Refractory, t), true)
        else (Machine(Shock1, t), false)
      else (if gap > cfg.gapMaxMs then Machine(Idle, m.mark) else m, false)
    case Refractory =>
      (if MsSince(t, m.mark) > cfg.refractoryMs then Machine(Idle, m.mark) else m, false)
  }

  class Detector {
    const cfg: Config
    const dtNom: real
    const root: real -> real      // sqrtf
    var baseline: real
    var phase: Phase
    var tMark: u32
    var tLast: u32
    var haveT: bool
    var primed: bool
    var warmup: nat

    ghost function FrontView(): (front: Front)
      reads this
    {
      Front(baseline, primed, warmup)
    }

    ghost function MachineView(): (m: Machine)
      reads this
    {
      Machine(phase, tMark)
    }

    /** The machine only starts once the baseline is warm. */
    ghost predicate Valid()
      reads this
    {
      dtNom > 0.0 && cfg.baselineTau >= 0.0 && (!primed && warmup > 0 ==> phase == Idle)
    }

    constructor (cfg: Config, odrHz: real, root: real -> real)
      requires odrHz > 0.0 && cfg.baselineTau >= 0.0
      ensures Valid() && MachineView() == Machine(Idle, 0)
      ensures FrontView() == Front(9.81, false, (2.0 * cfg.baselineTau * odrHz).Floor + 1)
      ensures this.cfg == cfg && this.root == root && dtNom == 1.0 / odrHz
    {
      this.cfg, this.root, dtNom := cfg, root, 1.0 / odrHz;
      baseline, phase, tMark, tLast, haveT, primed := 9.81, Idle, 0, 0, false, false;
      warmup := (2.0 * cfg.baselineTau * odrHz).Floor + 1;
    }

    /** One accelerometer sample; true exactly when it completes a double tap. */
    method Feed(t: u32, acc: (real, real, real)) returns (event: bool)
      requires Valid()
      modifies this
      ensures Valid()
      ensures var mag := root(acc.0 * acc.0 + acc.1 * acc.1 + acc.2 * acc.2);
        var sensed := Sensed(old(FrontView()), cfg, dtNom / (cfg.baselineTau + dtNom), mag);
        && FrontView() == sensed.0
        && (MachineView(), event) == Moved(old(MachineView()), cfg, t, sensed.1)
    {
      var mag := root(acc.0 * acc.0 + acc.1 * acc.1 + acc.2 * acc.2);
      var alpha := dtNom / (cfg.baselineTau + dtNom);
      baseline := baseline + alpha * (mag - baseline);
      tLast, haveT := t, true;
      if !primed {
        if warmup > 0 {
          warmup := warmup - 1;
          return false;
        }
        primed := true;
      }
      var dev := Abs(mag - baseline);
      var spike, quiet := dev > cfg.spikeThs, dev < cfg.rearmThs;
      event := false;
      match phase {
        case Idle =>
          if spike {
            phase, tMark := Shock1, t;
          }
        case Shock1 =>
          if quiet {
            phase, tMark := Gap, t;
          } else if MsSince(t, tMark) > cfg.shockMaxMs {
            phase := Idle;
          }
        case Gap =>
          var gap := MsSince(t, tMark);
          if spike {
            if gap < cfg.gapMinMs {
              phase, tMark := Shock1, t;
            } else if gap <= cfg.gapMaxMs {
              event := true;
              phase, tMark := Refractory, t;
            } else {
              phase, tMark := Shock1, t;
            }
          } else if gap > cfg.gapMaxMs {
            phase := Idle;
          }
        case Refractory =>
          if MsSince(t, tMark) > cfg.refractoryMs {
            phase := Idle;
          }
      }
    }
  }

  // ---- whole runs -------------------------------------------------------------------------

  /** A sample as it truly happened: its time in microseconds, unwrapped. */
  datatype Sample = Sample(time: nat, signal: Signal)

  /** Time never runs backwards, and no gap between samples reaches 2^31 microseconds. */
  ghost predicate Timely(run: seq<Sample>) {
    forall k :: 0 <= k < |run| - 1 ==>
      run[k].time <= run[k + 1].time < run[k].time + HALF
  }

  function Stamp(time: nat): (t: u32) {
    time % WRAP
  }

  /** The machine, and which samples set its mark and its first spike. */
  datatype Traced = Traced(m: Machine, event: bool, markAt: nat, spikeAt: nat)

  function After(cfg: Config, run: seq<Sample>): (tr: Traced)
    decreases |run|
  {
    if run == [] then Traced(Machine(Idle, 0), false, 0, 0)
    else
      var k := |run| - 1;
      var before := After(cfg, run[..k]);
      var moved := Moved(before.m, cfg, Stamp(run[k].time), run[k].signal);
      var entered := moved.0.phase != Idle && (moved.0.phase != before.m.phase);
      Traced(moved.0, moved.1, if entered then k else before.markAt,
             if entered && moved.0.phase == Shock1 then k else before.spikeAt)
  }

  /** Sample `k` of the run completes a double tap. */
  predicate EventAt(cfg: Config, run: seq<Sample>, k: nat)
    requires k < |run|
  {
    After(cfg, run[..k + 1]).event
  }

  lemma {:induction false} TimesOrdered(run: seq<Sample>, i: nat, j: nat)
    requires Timely(run) && i <= j < |run|
    ensures run[i].time <= run[j].time
    decreases j - i
  {
    if i < j {
      TimesOrdered(run, i, j - 1);
    }
  }

  /** Between two true times less than one wrap apart the floored milliseconds are right. */
  lemma MsSinceTrue(now: nat, then_: nat)
    requires then_ <= now < then_ + WRAP
    ensures MsSince(Stamp(now), Stamp(then_)) == (now - then_) / 1000
  {
    var d := now - then_;
    assert now == WRAP * (now / WRAP) + now % WRAP;
    assert then_ == WRAP * (then_ / WRAP) + then_ % WRAP;
    var q := now / WRAP - then_ / WRAP;
    assert Stamp(now) - Stamp(then_) == d - WRAP * q;
    ModUnique(Stamp(now) - Stamp(then_), -q, d);
  }

  lemma ModUnique(x: int, q: int, d: nat)
    requires x == WRAP * q + d && d < WRAP
    ensures x % WRAP == d
  {
  }

  // Longest stay in a phase that a 16-bit limit allows, in microseconds.
  const STAY: nat := 0x1_0000 * 1000

  /** What the phase after a run says about the samples behind it. */
  ghost predicate Story(cfg: Config, run: seq<Sample>, tr: Traced) {
    var n := |run|;
    tr.m.phase != Idle ==>
      && tr.markAt < n && tr.m.mark == Stamp(run[tr.markAt].time)
      && run[n - 1].time < run[tr.markAt].time + STAY
      && (tr.m.phase == Shock1 ==> tr.spikeAt == tr.markAt && run[tr.markAt].signal.spike)
      && (tr.m.phase == Gap ==>
            && tr.spikeAt < tr.markAt && run[tr.spikeAt].signal.spike
            && run[tr.markAt].signal.quiet
            && forall i :: tr.markAt < i < n ==> !run[i].signal.spike)
  }

  lemma Elapsed(cfg: Config, run: seq<Sample>, tr: Traced)
    requires Timely(run) && |run| >= 2 && tr.m.phase != Idle
    requires Story(cfg, run[..|run| - 1], tr)
    ensures tr.markAt < |run| - 1 && tr.m.mark == Stamp(run[tr.markAt].time)
    ensures run[tr.markAt].time <= run[|run| - 1].time
    ensures MsSince(Stamp(run[|run| - 1].time), tr.m.mark) ==
            (run[|run| - 1].time - run[tr.markAt].time) / 1000
  {
    TimesOrdered(run, tr.markAt, |run| - 1);
    assert run[..|run| - 1][|run| - 2] == run[|run| - 2];
    MsSinceTrue(run[|run| - 1].time, run[tr.markAt].time);
  }

  lemma {:induction false} Stories(cfg: Config, run: seq<Sample>)
    requires Timely(run)
    ensures Story(cfg, run, After(cfg, run))
    decreases |run|
  {
    if run != [] {
      var k := |run| - 1;
      Stories(cfg, run[..k]);
      var before := After(cfg, run[..k]);
      if before.m.phase != Idle {
        Elapsed(cfg, run, before);
      }
    }
  }

  /** With the rearm threshold no higher than the spike threshold, as configured, a quiet
      sample is never a spike. */
  lemma QuietIsNoSpike(front: Front, cfg: Config, alpha: real, mag: real)
    requires cfg.rearmThs <= cfg.spikeThs
    ensures var sig := Sensed(front, cfg, alpha, mag).1; !(sig.spike && sig.quiet)
  {
  }

  lemma Prefix(run: seq<Sample>, k: nat)
    requires Timely(run) && k < |run|
    ensures Timely(run[..k]) && Timely(run[..k + 1]) && run[..k + 1][..k] == run[..k]
  {
  }

  /** An event happens at sample `k` exactly when the machine sits in the gap after a first
      tap, `k` is a spike, and the true time since the gap's quiet start, in floored
      milliseconds, is within the configured bounds. */
  lemma EventIff(cfg: Config, run: seq<Sample>, k: nat)
    requires Timely(run) && k < |run|
    ensures var before := After(cfg, run[..k]);
      EventAt(cfg, run, k) <==>
        before.m.phase == Gap && run[k].signal.spike && before.markAt < k &&
        cfg.gapMinMs <= (run[k].time - run[before.markAt].time) / 1000 <= cfg.gapMaxMs
  {
    Prefix(run, k);
    Stories(cfg, run[..k]);
    if After(cfg, run[..k]).m.phase != Idle {
      Elapsed(cfg, run[..k + 1], After(cfg, run[..k]));
    }
  }

  /** Behind every event: an earlier spike `i`, then a quiet sample `j`, no spike from
      there to the event, and the event's own spike at the right distance from `j`. */
  lemma EventHistory(cfg: Config, run: seq<Sample>, k: nat) returns (i: nat, j: nat)
    requires Timely(run) && k < |run| && EventAt(cfg, run, k)
    ensures i < j < k && run[i].signal.spike && run[j].signal.quiet && run[k].signal.spike
    ensures forall l :: j < l < k ==> !run[l].signal.spike
    ensures run[j].time <= run[k].time
    ensures cfg.gapMinMs <= (run[k].time - run[j].time) / 1000 <= cfg.gapMaxMs
  {
    hide After, EventAt;
    var before := After(cfg, run[..k]);
    Prefix(run, k);
    EventIff(cfg, run, k);
    Stories(cfg, run[..k]);
    i, j := before.spikeAt, before.markAt;
    TimesOrdered(run, j, k);
    forall l | j < l < k ensures !run[l].signal.spike {
      assert run[..k][l] == run[l];
    }
  }

  function Hold(cfg: Config): (us: nat) {
    1000 * (cfg.refractoryMs + 1)
  }

  /** After an event at `a`, everything the machine does next is a hold-off away from it. */
  ghost predicate Held(cfg: Config, run: seq<Sample>, a: nat, tr: Traced)
    requires a < |run|
  {
    var from := run[a].time + Hold(cfg);
    match tr.m.phase
    case Idle => run[|run| - 1].time >= from
    case Refractory =>
      a <= tr.markAt < |run| &&
      (tr.markAt == a || run[tr.markAt].time >= from + 1000 * cfg.gapMinMs)
    case _ => tr.markAt < |run| && run[tr.markAt].time >= from
  }

  lemma {:induction false} HeldAfter(cfg: Config, run: seq<Sample>, a: nat)
    requires Timely(run) && a < |run| && EventAt(cfg, run, a)
    ensures Held(cfg, run, a, After(cfg, run))
    decreases |run|
  {
    hide After, Story;
    var k := |run| - 1;
    if a == k {
      assert run[..k + 1] == run;
      EventLeavesRefractory(cfg, run);
    } else {
      Prefix(run, k);
      SameEvent(cfg, run, a, k);
      HeldAfter(cfg, run[..k], a);
      Stories(cfg, run[..k]);
      MarkOfPrefix(cfg, run, After(cfg, run[..k]));
      HeldStep(cfg, run, a, After(cfg, run[..k]));
    }
  }

  lemma MarkOfPrefix(cfg: Config, run: seq<Sample>, before: Traced)
    requires Timely(run) && |run| >= 2 && Story(cfg, run[..|run| - 1], before)
    ensures before.m.phase == Idle || MarkSeen(run, before)
  {
    if before.m.phase != Idle {
      Elapsed(cfg, run, before);
    }
  }

  lemma EventLeavesRefractory(cfg: Config, run: seq<Sample>)
    requires run != [] && EventAt(cfg, run, |run| - 1)
    ensures After(cfg, run).m.phase == Refractory && After(cfg, run).markAt == |run| - 1
  {
    assert run[..|run|] == run;
  }

  /** The machine's mark is a true earlier time, and the timestamps measure it rightly. */
  ghost predicate MarkSeen(run: seq<Sample>, tr: Traced)
    requires run != []
  {
    && tr.markAt < |run| - 1 && run[tr.markAt].time <= run[|run| - 1].time
    && MsSince(Stamp(run[|run| - 1].time), tr.m.mark) ==
       (run[|run| - 1].time - run[tr.markAt].time) / 1000
  }

  lemma HeldStep(cfg: Config, run: seq<Sample>, a: nat, before: Traced)
    requires Timely(run) && a < |run| - 1 && before == After(cfg, run[..|run| - 1])
    requires Held(cfg, run[..|run| - 1], a, before)
    requires before.m.phase == Idle || MarkSeen(run, before)
    ensures Held(cfg, run, a, After(cfg, run))
  {
    var k := |run| - 1;
    assert run[k - 1].time <= run[k].time;
    assert run[..k][a] == run[a];
  }

  /** Two events are never closer than the hold-off plus the smallest gap. */
  lemma EventsApart(cfg: Config, run: seq<Sample>, a: nat, b: nat)
    requires Timely(run) && a < b < |run| && EventAt(cfg, run, a) && EventAt(cfg, run, b)
    ensures run[b].time - run[a].time >= 1000 * (cfg.refractoryMs + 1 + cfg.gapMinMs)
  {
    hide After, EventAt;
    Prefix(run, b);
    assert run[..b][..a + 1] == run[..a + 1] && EventAt(cfg, run[..b], a) by {
      SameEvent(cfg, run, a, b);
    }
    HeldAfter(cfg, run[..b], a);
    EventIff(cfg, run, b);
    TimesOrdered(run, a, b);
  }

  lemma SameEvent(cfg: Config, run: seq<Sample>, a: nat, b: nat)
    requires a < b <= |run|
    ensures run[..b][..a + 1] == run[..a + 1]
    ensures EventAt(cfg, run[..b], a) == EventAt(cfg, run, a)
  {
    assert run[..b][..a + 1] == run[..a + 1];
  }

  // ---- what the machine does not miss ---------------------------------------------------------

  /** Sample `i` is taken for the first spike of a tap. */
  predicate Starts(cfg: Config, run: seq<Sample>, i: nat)
    requires i < |run|
  {
    var tr := After(cfg, run[..i + 1]); tr.m.phase == Shock1 && tr.markAt == i
  }

  /** Sample `j` ends that tap; the gap is counted from it. */
  predicate Ends(cfg: Config, run: seq<Sample>, j: nat)
    requires j < |run|
  {
    var tr := After(cfg, run[..j + 1]); tr.m.phase == Gap && tr.markAt == j
  }

  /** Floored milliseconds of true time from one sample to another. */
  function Ms(run: seq<Sample>, i: nat, j: nat): (ms: int)
    requires i < |run| && j < |run|
  {
    (run[j].time - run[i].time) / 1000
  }

  predicate IdleBefore(cfg: Config, run: seq<Sample>, i: nat)
    requires i <= |run|
  {
    After(cfg, run[..i]).m.phase == Idle
  }

  /** One sample more, on true times. */
  lemma OneMore(cfg: Config, run: seq<Sample>, k: nat)
    requires Timely(run) && k < |run|
    ensures var before, after := After(cfg, run[..k]), After(cfg, run[..k + 1]);
      && after == After(cfg, run[..k] + [run[k]])
      && (before.m.phase != Idle ==>
            && before.markAt < k && before.m.mark == Stamp(run[before.markAt].time)
            && MsSince(Stamp(run[k].time), before.m.mark) == Ms(run, before.markAt, k))
      && after.m == Moved(before.m, cfg, Stamp(run[k].time), run[k].signal).0
      && after.event == Moved(before.m, cfg, Stamp(run[k].time), run[k].signal).1
      && after.markAt == (if after.m.phase != Idle && after.m.phase != before.m.phase then k else before.markAt)
  {
    hide Moved;
    Prefix(run, k);
    Stories(cfg, run[..k]);
    assert run[..k] + [run[k]] == run[..k + 1];
    assert run[..k + 1][k] == run[k];
    if After(cfg, run[..k]).m.phase != Idle {
      Elapsed(cfg, run[..k + 1], After(cfg, run[..k]));
    }
  }

  /** A spike on an idle machine is always taken for a first one; and only a spike is, either on an idle
      machine or in a gap whose bounds it misses. */
  lemma StartIff(cfg: Config, run: seq<Sample>, i: nat)
    requires Timely(run) && i < |run|
    ensures var before := After(cfg, run[..i]);
      Starts(cfg, run, i) <==>
        run[i].signal.spike &&
        (before.m.phase == Idle ||
         (before.m.phase == Gap && before.markAt < i &&
          !(cfg.gapMinMs <= Ms(run, before.markAt, i) <= cfg.gapMaxMs)))
  {
    hide After, MsSince;
    OneMore(cfg, run, i);
  }

  /** While the first tap rings within its limit, the machine waits for quiet. */
  lemma {:induction false} Rings(cfg: Config, run: seq<Sample>, i: nat, l: nat)
    requires Timely(run) && i < l <= |run| && Starts(cfg, run, i)
    requires forall k :: i < k < l ==> !run[k].signal.quiet && Ms(run, i, k) <= cfg.shockMaxMs
    ensures After(cfg, run[..l]).m.phase == Shock1 && After(cfg, run[..l]).markAt == i
    decreases l
  {
    hide After, MsSince;
    if l > i + 1 {
      Rings(cfg, run, i, l - 1);
      OneMore(cfg, run, l - 1);
    }
  }

  /** The first quiet sample ends the tap; shaking beyond the limit gives it up. */
  lemma TapEnds(cfg: Config, run: seq<Sample>, i: nat, j: nat)
    requires Timely(run) && i < j < |run| && Starts(cfg, run, i)
    requires forall k :: i < k < j ==> !run[k].signal.quiet && Ms(run, i, k) <= cfg.shockMaxMs
    ensures run[j].signal.quiet ==> Ends(cfg, run, j)
    ensures !run[j].signal.quiet && Ms(run, i, j) > cfg.shockMaxMs ==> IdleBefore(cfg, run, j + 1)
  {
    hide After, MsSince;
    Rings(cfg, run, i, j);
    OneMore(cfg, run, j);
  }

  /** While no spike comes and the gap is not too long, the machine waits for the second tap; after
      that it is idle again. */
  lemma {:induction false} GapWaits(cfg: Config, run: seq<Sample>, j: nat, l: nat)
    requires Timely(run) && j < l <= |run| && Ends(cfg, run, j)
    requires forall k :: j < k < l ==> !run[k].signal.spike
    ensures var tr := After(cfg, run[..l]);
      && (Ms(run, j, l - 1) <= cfg.gapMaxMs ==> tr.m.phase == Gap && tr.markAt == j)
      && (Ms(run, j, l - 1) > cfg.gapMaxMs ==> tr.m.phase == Idle)
    decreases l
  {
    hide After, MsSince;
    if l > j + 1 {
      GapWaits(cfg, run, j, l - 1);
      OneMore(cfg, run, l - 1);
      TimesOrdered(run, l - 2, l - 1);
    }
  }

  /** Nothing is missed: a first spike, quiet again within the shock limit, then no spike until `k`. If
      the gap is within its bounds, `k` completes a double tap; else it starts a new one. */
  lemma DoubleTap(cfg: Config, run: seq<Sample>, i: nat, j: nat, k: nat)
    requires Timely(run) && i < j < k < |run| && Starts(cfg, run, i)
    requires forall l :: i < l < j ==> !run[l].signal.quiet && Ms(run, i, l) <= cfg.shockMaxMs
    requires run[j].signal.quiet && run[k].signal.spike
    requires forall l :: j < l < k ==> !run[l].signal.spike
    ensures if cfg.gapMinMs <= Ms(run, j, k) <= cfg.gapMaxMs then EventAt(cfg, run, k) else Starts(cfg, run, k)
  {
    hide After, MsSince, EventAt, Starts;
    TapEnds(cfg, run, i, j);
    GapWaits(cfg, run, j, k);
    TimesOrdered(run, k - 1, k);
    EventIff(cfg, run, k);
    StartIff(cfg, run, k);
  }

  /** After an event the machine ignores everything for the refractory time, and then is idle. */
  lemma {:induction false} ReadyAgain(cfg: Config, run: seq<Sample>, a: nat, l: nat)
    requires Timely(run) && a < l < |run| && EventAt(cfg, run, a)
    requires forall k :: a < k < l ==> Ms(run, a, k) <= cfg.refractoryMs
    ensures Ms(run, a, l) > cfg.refractoryMs ==> IdleBefore(cfg, run, l + 1)
    ensures Ms(run, a, l) <= cfg.refractoryMs ==>
              After(cfg, run[..l + 1]).m.phase == Refractory && After(cfg, run[..l + 1]).markAt == a
    decreases l
  {
    hide After, MsSince;
    if l > a + 1 {
      ReadyAgain(cfg, run, a, l - 1);
    } else {
      OneMore(cfg, run, a);
    }
    OneMore(cfg, run, l);
  }

  // ---- the front end over a run of magnitudes -------------------------------------------------

  /** The moving mean of the magnitudes, from one g on. */
  function Baseline(tau: real, dt: real, mags: seq<real>): (b: real)
    requires tau >= 0.0 && dt > 0.0
    decreases |mags|
  {
    if mags == [] then 9.81
    else (tau * Baseline(tau, dt, mags[..|mags| - 1]) + dt * mags[|mags| - 1]) / (tau + dt)
  }

  function FrontAfter(cfg: Config, alpha: real, start: Front, mags: seq<real>): (front: Front)
    decreases |mags|
  {
    if mags == [] then start
    else Sensed(FrontAfter(cfg, alpha, start, mags[..|mags| - 1]), cfg, alpha, mags[|mags| - 1]).0
  }

  /** The first samples, as many as the warm-up asks for, are neither spike nor quiet; from then on a
      sample is a spike or quiet by its distance from the moving mean it is part of. */
  lemma {:induction false} SensedIs(cfg: Config, dt: real, warmup: nat, mags: seq<real>, mag: real)
    requires cfg.baselineTau >= 0.0 && dt > 0.0
    ensures var alpha := dt / (cfg.baselineTau + dt);
      var front := FrontAfter(cfg, alpha, Front(9.81, false, warmup), mags);
      var sig := Sensed(front, cfg, alpha, mag).1;
      var off := Abs(mag - Baseline(cfg.baselineTau, dt, mags + [mag]));
      && front == Front(Baseline(cfg.baselineTau, dt, mags), |mags| > warmup,
                        if |mags| < warmup then warmup - |mags| else 0)
      && (sig.spike <==> |mags| >= warmup && off > cfg.spikeThs)
      && (sig.quiet <==> |mags| >= warmup && off < cfg.rearmThs)
    decreases |mags|
  {
    hide Baseline, Sensed;
    var alpha := dt / (cfg.baselineTau + dt);
    SensedNext(cfg, dt, FrontAfter(cfg, alpha, Front(9.81, false, warmup), mags), mags, mag);
    if mags == [] {
      MeanNone(cfg.baselineTau, dt);
    } else {
      var n := |mags| - 1;
      SensedIs(cfg, dt, warmup, mags[..n], mags[n]);
      assert mags[..n] + [mags[n]] == mags;
      SensedNext(cfg, dt, FrontAfter(cfg, alpha, Front(9.81, false, warmup), mags[..n]), mags[..n], mags[n]);
    }
  }

  lemma SensedNext(cfg: Config, dt: real, front: Front, mags: seq<real>, mag: real)
    requires cfg.baselineTau >= 0.0 && dt > 0.0
    ensures front.baseline == Baseline(cfg.baselineTau, dt, mags) ==>
              var next, waits := Baseline(cfg.baselineTau, dt, mags + [mag]), !front.primed && front.warmup > 0;
              Sensed(front, cfg, dt / (cfg.baselineTau + dt), mag) ==
              (Front(next, !waits, if waits then front.warmup - 1 else front.warmup),
               Signal(!waits && Abs(mag - next) > cfg.spikeThs, !waits && Abs(mag - next) < cfg.rearmThs))
  {
    hide Baseline, Toward;
    MeanNext(cfg.baselineTau, dt, mags, mag);
  }

  lemma MeanNone(tau: real, dt: real)
    requires tau >= 0.0 && dt > 0.0
    ensures Baseline(tau, dt, []) == 9.81
  {
  }

  lemma MeanNext(tau: real, dt: real, mags: seq<real>, mag: real)
    requires tau >= 0.0 && dt > 0.0
    ensures var b := Baseline(tau, dt, mags);
      Toward(b, dt / (tau + dt), mag) == Baseline(tau, dt, mags + [mag])
  {
    assert (mags + [mag])[..|mags|] == mags;
    Mixed(Baseline(tau, dt, mags), mag, tau, dt);
  }

  lemma Mixed(b: real, mag: real, tau: real, dt: real)
    requires tau >= 0.0 && dt > 0.0
    ensures Toward(b, dt / (tau + dt), mag) == (tau * b + dt * mag) / (tau + dt)
  {
    var n := tau + dt;
    var a := dt / n;
    assert a * n == dt;
    assert (b + a * (mag - b)) * n == b * n + (a * n) * (mag - b);
    assert (b + a * (mag - b)) * n == tau * b + dt * mag;
    Quotient(b + a * (mag - b), n, tau * b + dt * mag);
  }

  lemma Quotient(x: real, n: real, p: real)
    requires n > 0.0 && x * n == p
    ensures x == p / n
  {
  }
}
