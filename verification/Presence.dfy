/** The timed protocol between the beacons of the dongles in range and a head unit's power
    states: firmware/app_head/src/main.c (control loop), firmware/app_head/src/radio.c (listen
    window and beacon queue, module HeadRadio), firmware/app_dongle/src/radio.c (beacon timer),
    with the constants of firmware/common/radio/htk_radio.h.

    Times are integer milliseconds. Beacons are instants whose spacing stays within bounds; a
    beacon is heard exactly when it falls in an open window. Everything the head does besides
    sleeping (log output, radio reconfiguration, scheduling) takes at most a bounded overhead
    per stage. The bounds are parameters. */
module Presence {
  import opened Wire
  import Commands
  import HeadRadio

  const LISTEN_ACTIVE := 1000
  const LISTEN_STANDBY := 5000
  const WINDOW := 110
  const STANDBY_AFTER := 15000

  /** The least and the greatest spacing of beacons, and the greatest overhead of a stage. */
  datatype Timing = Timing(lo: nat, hi: nat, overhead: nat)

  /** Period plus jitter fits the window, and the longest window is no longer than two of the
      shortest spacings. */
  predicate Fair(p: Timing) {
    p.hi <= WINDOW && WINDOW + p.overhead <= 2 * p.lo
  }

  /** The window's opening and closing, and the uptime read after the queue is drained. */
  datatype Cycle = Cycle(open: int, close: int, now: int)

  /** What the radio met in one window: whether it could listen, the payloads that arrived, and
      whether it could go back to transmitting. */
  datatype Air = Air(rxConfigured: bool, rxStarted: bool, heard: seq<seq<byte>>, txOk: bool)

  predicate Works(a: Air) {
    a.rxConfigured && a.rxStarted
  }

  datatype Phase = Active | Standby

  datatype Head = Head(phase: Phase, lastBeacon: int, settings: Commands.Config, radio: HeadRadio.State)

  function Period(phase: Phase): (ms: nat) {
    if phase == Active then LISTEN_ACTIVE else LISTEN_STANDBY
  }

  function Tuned(radio: HeadRadio.State, a: Air): (next: HeadRadio.State) {
    HeadRadio.Listened(radio, a.rxConfigured, a.rxStarted, a.heard, a.txOk)
  }

  /** The control loop after the beacons a window left in the queue. */
  function Decided(h: Head, myId: nat, beacons: seq<seq<byte>>, now: int): (next: Head) {
    var heard := beacons != [];
    var last := if heard then now else h.lastBeacon;
    var settings := Commands.ObeyedAll(h.settings, myId, beacons);
    if h.phase == Active && now - last >= STANDBY_AFTER then Head(Standby, last, settings, h.radio)
    else if h.phase == Standby && heard then Head(Active, last, settings, h.radio)
    else Head(h.phase, last, settings, h.radio)
  }

  /** One round: listen, drain the queue, decide. */
  function Round(h: Head, myId: nat, a: Air, now: int): (next: Head) {
    var radio := Tuned(h.radio, a);
    Decided(h.(radio := radio.(queue := [])), myId, radio.queue, now)
  }

  class Control {
    const settings: Commands.HeadSettings
    const radio: HeadRadio.Radio
    var phase: Phase
    var lastBeacon: int
    var streaming: bool

    ghost function View(): (h: Head)
      reads this, settings, radio
    {
      Head(phase, lastBeacon, settings.View(), radio.View())
    }

    /** Boots streaming, so that a live receiver is met at once. */
    constructor (id: nat, uptime: int, txOk: bool)
      ensures View() == Booted(uptime, txOk) && streaming
      ensures settings.myId == id && fresh(settings) && fresh(radio)
    {
      settings := new Commands.HeadSettings(id);
      radio := new HeadRadio.Radio(txOk);
      phase, lastBeacon, streaming := Active, uptime, true;
    }

    /** Handles every queued beacon in turn. */
    method Drain() returns (heard: bool)
      requires forall k :: 0 <= k < |radio.queue| ==> Commands.Receivable(radio.queue[k])
      modifies settings, radio
      ensures heard == (old(radio.queue) != [])
      ensures radio.View() == old(radio.View()).(queue := [])
      ensures settings.View() == Commands.ObeyedAll(old(settings.View()), settings.myId, old(radio.queue))
    {
      hide Commands.Obeyed, Commands.Receivable, Commands.CommandIn;
      ghost var all, k := radio.queue, 0;
      heard := false;
      assert all[..0] == [];
      var b := radio.BeaconGet();
      while b.Some?
        invariant 0 <= k <= |all| && heard == (k > 0)
        invariant if b.Some? then k < |all| && b.value == all[k] && radio.queue == all[k + 1..]
                  else k == |all| && radio.queue == []
        invariant settings.View() == Commands.ObeyedAll(old(settings.View()), settings.myId, all[..k])
        invariant radio.View() == old(radio.View()).(queue := radio.queue)
        decreases |all| - k
      {
        heard := true;
        settings.HandleBeacon(b.value);
        assert all[..k + 1][..k] == all[..k];
        k := k + 1;
        b := radio.BeaconGet();
      }
      assert all[..|all|] == all;
    }

    /** One round: listens, drains the queue, then decides on the power state. */
    method Cycle(a: Air, now: int)
      requires streaming == (phase == Active) && radio.queue == []
      modifies this, settings, radio
      ensures View() == Round(old(View()), settings.myId, a, now)
      ensures streaming == (phase == Active) && radio.queue == []
    {
      hide HeadRadio.Listened, Commands.ObeyedAll, Commands.Receivable;
      HeadRadio.WindowDelivers(radio.View(), a.rxConfigured, a.rxStarted, a.heard, a.txOk);
      radio.Listen(a.rxConfigured, a.rxStarted, a.heard, a.txOk);
      var heard := Drain();
      if heard {
        lastBeacon := now;
      }
      if phase == Active && now - lastBeacon >= STANDBY_AFTER {
        phase := Standby;
        streaming := false;
      } else if phase == Standby && heard {
        phase := Active;
        streaming := true;
      }
    }
  }

  function Booted(uptime: int, txOk: bool): (h: Head) {
    Head(Active, uptime, Commands.DEFAULTS, HeadRadio.State(txOk, [], [], 0, 0, 0, 0))
  }

  // ---- beacons and windows ----------------------------------------------------------------

  /** Beacon k goes on air at beat(k). */
  ghost predicate Rising(beat: nat -> int) {
    forall k: nat :: beat(k) < beat(k + 1)
  }

  ghost predicate Beats(p: Timing, beat: nat -> int) {
    Rising(beat) && forall k: nat :: beat(k) + p.lo <= beat(k + 1) <= beat(k) + p.hi
  }

  lemma {:induction false} BeatsApart(p: Timing, beat: nat -> int, i: nat, j: nat)
    requires Beats(p, beat) && i <= j
    ensures beat(i) + (j - i) * p.lo <= beat(j) <= beat(i) + (j - i) * p.hi
    decreases j - i
  {
    if i < j {
      BeatsApart(p, beat, i, j - 1);
      assert beat(j - 1) + p.lo <= beat(j - 1 + 1) <= beat(j - 1) + p.hi;
      assert (j - i) * p.lo == (j - 1 - i) * p.lo + p.lo && (j - i) * p.hi == (j - 1 - i) * p.hi + p.hi;
    }
  }

  lemma {:induction false} InOrder(beat: nat -> int, i: nat, j: nat)
    requires Rising(beat) && i <= j
    ensures beat(i) <= beat(j) && (i < j ==> beat(i) < beat(j))
    decreases j
  {
    if i < j {
      InOrder(beat, i, j - 1);
      assert beat(j - 1) < beat(j - 1 + 1);
    }
  }

  /** A beacon that is earlier in time has the smaller number. */
  lemma NotBefore(beat: nat -> int, i: nat, j: nat)
    requires Rising(beat) && beat(i) < beat(j)
    ensures i < j
  {
    if j <= i {
      InOrder(beat, j, i);
    }
  }

  /** The first beacon from the k-th on that is not before `t`. */
  ghost function FirstFrom(beat: nat -> int, k: nat, t: int): (f: nat)
    requires Rising(beat)
    ensures f >= k && beat(f) >= t
    ensures forall i :: k <= i < f ==> beat(i) < t
    decreases if beat(k) >= t then 0 else t - beat(k)
  {
    if beat(k) >= t then k
    else
      assert beat(k) < beat(k + 1);
      FirstFrom(beat, k + 1, t)
  }

  ghost function First(beat: nat -> int, t: int): (f: nat)
    requires Rising(beat)
  {
    FirstFrom(beat, 0, t)
  }

  /** A window as the radio keeps it: one that listens is at least WINDOW long, and none is much
      longer. */
  predicate Windowed(p: Timing, c: Cycle, works: bool) {
    && c.open + (if works then WINDOW else 0) <= c.close <= c.open + WINDOW + p.overhead
    && c.close <= c.now <= c.close + p.overhead
  }

  /** How many of the dongle's beacons a window holds; they are consecutive, from First. */
  ghost function Heard(beat: nat -> int, c: Cycle): (n: nat)
    requires Rising(beat) && c.open <= c.close
  {
    FirstOrder(beat, c.open, c.close);
    First(beat, c.close) - First(beat, c.open)
  }

  lemma FirstOrder(beat: nat -> int, s: int, t: int)
    requires Rising(beat) && s <= t
    ensures First(beat, s) <= First(beat, t)
  {
    hide FirstFrom;
    assert beat(First(beat, t)) >= t;
  }

  /** A beacon is heard exactly when it is one of those. */
  lemma HeardAre(beat: nat -> int, c: Cycle, k: nat)
    requires Rising(beat) && c.open <= c.close
    ensures c.open <= beat(k) < c.close <==>
            First(beat, c.open) <= k < First(beat, c.open) + Heard(beat, c)
  {
    FirstOrder(beat, c.open, c.close);
    var f, g := First(beat, c.open), First(beat, c.close);
    if f <= k { InOrder(beat, f, k); }
    if g <= k { InOrder(beat, g, k); }
  }

  /** Every window holds at most two of a dongle's beacons, and at least one if the dongle was
      beaconing when it opened. */
  lemma OneOrTwo(p: Timing, beat: nat -> int, c: Cycle)
    requires Fair(p) && Beats(p, beat) && Windowed(p, c, true)
    ensures Heard(beat, c) <= 2
    ensures beat(0) <= c.open ==> 1 <= Heard(beat, c)
  {
    var f := First(beat, c.open);
    assert f > 0 ==> beat(f - 1) < c.open && beat(f - 1 + 1) <= beat(f - 1) + p.hi;
    HeardAre(beat, c, f);
    assert beat(f) + p.lo <= beat(f + 1) && beat(f + 1) + p.lo <= beat(f + 1 + 1);
    HeardAre(beat, c, f + 2);
  }

  // ---- several dongles, one queue -------------------------------------------------------------

  /** When a dongle beacons, and what each beacon holds. */
  datatype Dongle = Dongle(beat: nat -> int, content: nat -> seq<byte>)

  /** The beacons of one dongle that fall in a window. */
  ghost function Sent(d: Dongle, c: Cycle): (b: seq<seq<byte>>)
    requires Rising(d.beat) && c.open <= c.close
    ensures |b| == Heard(d.beat, c)
  {
    seq(Heard(d.beat, c), k requires k >= 0 => d.content(First(d.beat, c.open) + k))
  }

  ghost predicate AllRising(ds: seq<Dongle>) {
    forall j :: 0 <= j < |ds| ==> Rising(ds[j].beat)
  }

  /** All the beacons of all dongles that fall in a window, in whatever order. */
  ghost function Mix(ds: seq<Dongle>, c: Cycle): (b: multiset<seq<byte>>)
    requires AllRising(ds) && c.open <= c.close
    decreases |ds|
  {
    if ds == [] then multiset{} else Mix(ds[..|ds| - 1], c) + multiset(Sent(ds[|ds| - 1], c))
  }

  ghost predicate InRange(p: Timing, ds: seq<Dongle>) {
    AllRising(ds) && forall j :: 0 <= j < |ds| ==> Beats(p, ds[j].beat)
  }

  /** Some dongle was beaconing when the window opened. */
  ghost predicate Present(ds: seq<Dongle>, c: Cycle) {
    exists j :: 0 <= j < |ds| && ds[j].beat(0) <= c.open
  }

  lemma {:induction false} MixSize(p: Timing, ds: seq<Dongle>, c: Cycle)
    requires Fair(p) && InRange(p, ds) && Windowed(p, c, true)
    ensures |Mix(ds, c)| <= 2 * |ds|
    ensures Present(ds, c) ==> |Mix(ds, c)| >= 1
    ensures (forall j :: 0 <= j < |ds| ==> ds[j].beat(0) <= c.open) ==> |Mix(ds, c)| >= |ds|
    decreases |ds|
  {
    hide Heard, Beats;
    if ds != [] {
      var start, last := ds[..|ds| - 1], ds[|ds| - 1];
      OneOrTwo(p, last.beat, c);
      MixSize(p, start, c);
      if Present(ds, c) {
        var j :| 0 <= j < |ds| && ds[j].beat(0) <= c.open;
        assert j < |start| ==> start[j].beat(0) <= c.open;
      }
    }
  }

  /** What is in the mix comes from some dongle, and all of a dongle's beacons are in it. */
  lemma {:induction false} MixMembers(ds: seq<Dongle>, c: Cycle, x: seq<byte>)
    requires AllRising(ds) && c.open <= c.close
    ensures x in Mix(ds, c) <==> exists j :: 0 <= j < |ds| && x in Sent(ds[j], c)
    decreases |ds|
  {
    hide Heard, Sent;
    if ds != [] {
      var start, last := ds[..|ds| - 1], ds[|ds| - 1];
      MixMembers(start, c, x);
      assert x in multiset(Sent(last, c)) <==> x in Sent(last, c);
      if j :| 0 <= j < |ds| && x in Sent(ds[j], c) {
        assert j < |start| ==> start[j] == ds[j];
      }
      if j :| 0 <= j < |start| && x in Sent(start[j], c) {
        assert ds[j] == start[j];
      }
    }
  }

  // ---- whole runs of the head ---------------------------------------------------------------

  /** A head's life: its listen cycles, what the radio met in each, its identifier, the uptime at
      which its loop started and whether the radio came up. */
  datatype Life = Life(timing: Timing, cycles: seq<Cycle>, airs: seq<Air>, myId: nat, boot: int, txOk: bool)
  {
    /** The head after its first `n` cycles. */
    function After(n: nat): (h: Head)
      requires n <= |cycles| == |airs|
    {
      if n == 0 then Booted(boot, txOk)
      else Round(After(n - 1), myId, airs[n - 1], cycles[n - 1].now)
    }

    /** The beacons cycle `i` leaves in the queue, which the control loop then drains. */
    function Delivered(i: nat): (b: seq<seq<byte>>)
      requires i < |cycles| == |airs|
    {
      Tuned(After(i).radio, airs[i]).queue
    }

    /** When the sleep before cycle `n` begins. */
    function SleepFrom(n: nat): (t: int)
      requires n <= |cycles|
    {
      if n == 0 then boot else cycles[n - 1].now
    }

    /** Every cycle sleeps for the period of the state the head is in, then listens. */
    ghost predicate Timed(): (t: bool)
      ensures t ==> |cycles| == |airs|
    {
      && |cycles| == |airs|
      && forall i {:trigger cycles[i]} :: 0 <= i < |cycles| ==>
           && Windowed(timing, cycles[i], Works(airs[i]))
           && var wake := SleepFrom(i) + Period(After(i).phase);
              wake <= cycles[i].open <= wake + timing.overhead
    }
  }

  /** The longest time from one open window to the next while active. */
  function ActiveOpen(p: Timing): (ms: nat) {
    WINDOW + p.overhead + p.overhead + LISTEN_ACTIVE + p.overhead
  }

  /** The longest time from one uptime reading to the next while active. */
  function ActiveCycle(p: Timing): (ms: nat) {
    LISTEN_ACTIVE + p.overhead + WINDOW + p.overhead + p.overhead
  }

  /** The longest time from an open window to the uptime read after the next, in any state. */
  function StandbyCycle(p: Timing): (ms: nat) {
    WINDOW + p.overhead + p.overhead + LISTEN_STANDBY + p.overhead + WINDOW + p.overhead + p.overhead
  }

  /** The thirty repeats outlast two active windows. */
  predicate Roomy(p: Timing) {
    2 * ActiveOpen(p) + WINDOW + p.overhead <= Commands.REPEATS * p.lo
  }

  /** A period of 100 ms with 10 ms of jitter leaves room for 50 ms of overhead a stage. */
  lemma NominalTiming()
    ensures Fair(Timing(90, 110, 50)) && Roomy(Timing(90, 110, 50))
  {
  }

  /** One round of the loop. */
  lemma NextHead(w: Life, n: nat)
    requires w.Timed() && n < |w.cycles|
    ensures w.After(n + 1).phase == Decided(w.After(n), w.myId, w.Delivered(n), w.cycles[n].now).phase
    ensures w.After(n + 1).lastBeacon == if w.Delivered(n) != [] then w.cycles[n].now else w.After(n).lastBeacon
    ensures w.After(n + 1).settings == Commands.ObeyedAll(w.After(n).settings, w.myId, w.Delivered(n))
    ensures w.After(n + 1).radio.queue == []
    ensures w.SleepFrom(n + 1) == w.cycles[n].now
  {
    hide Tuned, Life.Timed, Commands.ObeyedAll;
  }

  /** Between rounds the queue is empty, so what a round delivers are the first eight beacons its
      own window heard. */
  lemma DeliveredAre(w: Life, n: nat)
    requires w.Timed() && n < |w.cycles|
    ensures w.Delivered(n) ==
            if Works(w.airs[n]) then HeadRadio.FirstFew(HeadRadio.Beacons(w.airs[n].heard)) else []
  {
    hide HeadRadio.Listened, HeadRadio.FirstFew, HeadRadio.Beacons, Life.Timed, Commands.ObeyedAll;
    var a := w.airs[n];
    if n > 0 {
      NextHead(w, n - 1);
    }
    HeadRadio.WindowDelivers(w.After(n).radio, a.rxConfigured, a.rxStarted, a.heard, a.txOk);
  }

  lemma NextCycle(w: Life, n: nat)
    requires w.Timed() && n < |w.cycles|
    ensures w.SleepFrom(n) < w.cycles[n].open <= w.cycles[n].now == w.SleepFrom(n + 1)
    ensures Windowed(w.timing, w.cycles[n], Works(w.airs[n]))
    ensures w.After(n).phase == Active ==> w.cycles[n].now <= w.SleepFrom(n) + ActiveCycle(w.timing)
    ensures w.After(n).phase == Active ==> w.cycles[n].open <= w.SleepFrom(n) + LISTEN_ACTIVE + w.timing.overhead
    ensures w.After(n).phase == Active && n > 0 ==>
              w.cycles[n].open <= w.cycles[n - 1].open + ActiveOpen(w.timing)
    ensures n > 0 ==> w.cycles[n].now <= w.cycles[n - 1].open + StandbyCycle(w.timing)
    ensures w.SleepFrom(n) + LISTEN_ACTIVE + (if Works(w.airs[n]) then WINDOW else 0) <= w.cycles[n].now
  {
    hide Round;
    assert Windowed(w.timing, w.cycles[n], Works(w.airs[n]));
    if n > 0 {
      assert Windowed(w.timing, w.cycles[n - 1], Works(w.airs[n - 1]));
    }
  }

  /** An active head that keeps hearing beacons never enters standby. */
  lemma {:induction false} StaysActive(w: Life, n: nat, m: nat)
    requires w.Timed() && n <= m <= |w.cycles| && w.After(n).phase == Active
    requires forall i :: n <= i < m ==> w.Delivered(i) != []
    ensures w.After(m).phase == Active
    ensures m > n ==> w.After(m).lastBeacon == w.SleepFrom(m)
    decreases m
  {
    hide Life.Timed, Life.After, Life.Delivered, Life.SleepFrom, Commands.ObeyedAll;
    if m > n {
      StaysActive(w, n, m - 1);
      NextHead(w, m - 1);
    }
  }

  /** Window `i` works, and the beacons it hears are those the dongles in range send in it, in
      whatever order and among whatever other traffic. */
  ghost predicate Served(w: Life, i: nat, ds: seq<Dongle>)
    requires w.Timed() && i < |w.cycles|
  {
    && InRange(w.timing, ds) && Works(w.airs[i]) && w.cycles[i].open <= w.cycles[i].close
    && multiset(HeadRadio.Beacons(w.airs[i].heard)) == Mix(ds, w.cycles[i])
  }

  /** The queue holds the beacons of up to four dongles: the control loop is handed every beacon
      the window heard, one or two of each dongle. */
  lemma FourDonglesFit(w: Life, i: nat, ds: seq<Dongle>)
    requires Fair(w.timing) && w.Timed() && i < |w.cycles| && Served(w, i, ds)
    ensures |ds| <= 4 ==> multiset(w.Delivered(i)) == Mix(ds, w.cycles[i])
    ensures Present(ds, w.cycles[i]) ==> w.Delivered(i) != []
    ensures |w.Delivered(i)| <= 2 * |ds|
    ensures (|ds| <= 4 && forall j :: 0 <= j < |ds| ==> ds[j].beat(0) <= w.cycles[i].open) ==>
              |w.Delivered(i)| >= |ds|
  {
    hide Life.Timed, Life.After, Life.Delivered, Life.SleepFrom, Beats, HeadRadio.Beacons, Mix;
    NextCycle(w, i);
    DeliveredAre(w, i);
    MixSize(w.timing, ds, w.cycles[i]);
    assert |multiset(HeadRadio.Beacons(w.airs[i].heard))| == |HeadRadio.Beacons(w.airs[i].heard)|;
  }

  /** Presence safety: as long as in every window at least one dongle beacons, however many are in
      range and whichever they are, an active head stays active. */
  lemma PresenceSafe(w: Life, n: nat, m: nat, ranges: nat -> seq<Dongle>)
    requires Fair(w.timing) && w.Timed() && n <= m <= |w.cycles| && w.After(n).phase == Active
    requires forall i :: n <= i < m ==> Served(w, i, ranges(i)) && Present(ranges(i), w.cycles[i])
    ensures w.After(m).phase == Active
  {
    hide Life.Timed, Life.After, Life.Delivered, Life.SleepFrom, Served, Present;
    forall i | n <= i < m ensures w.Delivered(i) != [] {
      FourDonglesFit(w, i, ranges(i));
    }
    StaysActive(w, n, m);
  }

  /** With no beacons, the head is active exactly as long as less than 15 s have passed
      since it last heard one. */
  lemma {:induction false} SilentIff(w: Life, n: nat, m: nat)
    requires w.Timed() && n < m <= |w.cycles| && w.After(n).phase == Active
    requires w.SleepFrom(n) - w.After(n).lastBeacon < STANDBY_AFTER
    requires forall i :: n <= i < m ==> w.Delivered(i) == []
    ensures w.After(m).lastBeacon == w.After(n).lastBeacon
    ensures w.After(m).phase == Active <==>
              w.cycles[m - 1].now - w.After(n).lastBeacon < STANDBY_AFTER
    decreases m
  {
    hide Life.Timed, Life.After, Life.Delivered, Life.SleepFrom, Commands.ObeyedAll;
    NextCycle(w, m - 1);
    NextHead(w, m - 1);
    if m - 1 > n {
      SilentIff(w, n, m - 1);
      NextHead(w, m - 2);
    }
  }

  /** A head that last heard a beacon in its previous window, and then nothing, goes to
      standby no earlier than 15 s after it and no later than 15 s plus one cycle. */
  lemma StandbyOnTime(w: Life, n: nat, m: nat)
    requires w.Timed() && n <= m < |w.cycles| && w.After(n).phase == Active
    requires w.After(n).lastBeacon == w.SleepFrom(n)
    requires forall i :: n <= i <= m ==> w.Delivered(i) == []
    requires w.After(m).phase == Active && w.After(m + 1).phase == Standby
    ensures w.SleepFrom(n) + STANDBY_AFTER <= w.cycles[m].now < w.SleepFrom(n) + STANDBY_AFTER + ActiveCycle(w.timing)
  {
    hide Life.Timed, Life.After, Life.Delivered, Life.SleepFrom;
    SilentIff(w, n, m + 1);
    NextCycle(w, m);
    if m > n {
      SilentIff(w, n, m);
      NextHead(w, m - 1);
    }
  }

  lemma {:induction false} CyclesTakeTime(w: Life, n: nat, m: nat)
    requires w.Timed() && n <= m <= |w.cycles|
    ensures w.SleepFrom(m) >= w.SleepFrom(n) + (m - n) * LISTEN_ACTIVE
    ensures (forall i :: n <= i < m ==> Works(w.airs[i])) ==>
              w.SleepFrom(m) >= w.SleepFrom(n) + (m - n) * (LISTEN_ACTIVE + WINDOW)
    decreases m
  {
    hide Life.Timed, Life.After, Life.SleepFrom;
    if m > n {
      CyclesTakeTime(w, n, m - 1);
      NextCycle(w, m - 1);
    }
  }

  /** And it does get there: fourteen silent windows are always enough, fifteen if the radio fails
      to listen in some. */
  lemma StandbyReached(w: Life, n: nat, m: nat)
    requires w.Timed() && n + 14 <= m <= |w.cycles| && w.After(n).phase == Active
    requires n + 15 <= m || forall i :: n <= i < m ==> Works(w.airs[i])
    requires w.After(n).lastBeacon == w.SleepFrom(n)
    requires forall i :: n <= i < m ==> w.Delivered(i) == []
    ensures w.After(m).phase == Standby
  {
    hide Life.Timed, Life.After, Life.Delivered, Life.SleepFrom;
    CyclesTakeTime(w, n, m);
    SilentIff(w, n, m);
    NextHead(w, m - 1);
  }

  /** Recovery: the first window that opens after a dongle began to beacon wakes the head, within
      one standby cycle of its first beacon, whoever else is in range. */
  lemma RecoversInOneCycle(w: Life, n: nat, ds: seq<Dongle>, j: nat)
    requires Fair(w.timing) && w.Timed() && 0 < n < |w.cycles| && Served(w, n, ds) && j < |ds|
    requires w.cycles[n - 1].open < ds[j].beat(0) <= w.cycles[n].open
    ensures w.After(n + 1).phase == Active
    ensures w.cycles[n].now <= ds[j].beat(0) + StandbyCycle(w.timing)
  {
    hide Life.Timed, Life.After, Life.Delivered, Life.SleepFrom, Served, Commands.ObeyedAll;
    FourDonglesFit(w, n, ds);
    NextCycle(w, n);
    NextHead(w, n);
  }

  // ---- the settings of a head are what it heard -----------------------------------------------

  /** All the beacons the head's first `n` rounds were handed, in order. */
  function HandedOver(w: Life, n: nat): (beacons: seq<seq<byte>>)
    requires n <= |w.cycles| == |w.airs|
  {
    if n == 0 then [] else HandedOver(w, n - 1) + w.Delivered(n - 1)
  }

  /** Over a head's whole life since boot: its mode and rate are those of the last legal command for
      it of each kind that it was handed, or the boot values, and nothing else it hears moves them. */
  lemma {:induction false} LifeSettings(w: Life, n: nat)
    requires w.Timed() && n <= |w.cycles|
    ensures w.After(n).settings == Commands.ObeyedAll(Commands.DEFAULTS, w.myId, HandedOver(w, n))
    ensures Commands.HeardSettings(w.After(n).settings, Commands.DEFAULTS, w.myId, HandedOver(w, n))
    decreases n
  {
    hide Life.Timed, Life.Delivered, Life.SleepFrom, Commands.ObeyedAll, Commands.HeardSettings, Round;
    if n > 0 {
      LifeSettings(w, n - 1);
      NextHead(w, n - 1);
      Commands.ObeyedAllAppend(Commands.DEFAULTS, w.myId, HandedOver(w, n - 1), w.Delivered(n - 1));
    } else {
      NothingObeyed(w.myId);
    }
    Commands.SettingsHistory(Commands.DEFAULTS, w.myId, HandedOver(w, n));
  }

  lemma NothingObeyed(myId: nat)
    ensures Commands.ObeyedAll(Commands.DEFAULTS, myId, []) == Commands.DEFAULTS
  {
  }

  // ---- a command reaches the head -------------------------------------------------------------

  /** The dongle's beacons from the m-th on carry the command for its thirty repeats. */
  ghost predicate Carried(d: Dongle, m: nat, cmd: seq<byte>) {
    forall k: nat :: m <= k < m + Commands.REPEATS ==> Commands.CommandIn(d.content(k)) == cmd
  }

  /** From its m-th beacon on the dongle sends that command or none. */
  ghost predicate NoOther(d: Dongle, m: nat, cmd: seq<byte>) {
    forall k: nat :: k >= m ==> Commands.CommandIn(d.content(k)) in {cmd, []}
  }

  /** The dongle's next `many` beacons are those of a slot into which the command was put. */
  ghost predicate Emits(d: Dongle, slot: Commands.Slot, cmd: seq<byte>, m: nat, many: nat)
    requires Commands.Admitted(cmd)
  {
    forall n: nat :: n < many ==>
      d.content(m + n) == Commands.BeaconData(Commands.AfterBeacons(Commands.Pended(slot, cmd), n))
  }

  /** So it is with what the dongle emits after it accepted the command between beacons m-1 and m:
      all thirty carry it if none replaces it within them, and no other follows if none ever does. */
  lemma DongleCarries(d: Dongle, slot: Commands.Slot, cmd: seq<byte>, m: nat)
    requires Commands.Admitted(cmd)
    ensures Emits(d, slot, cmd, m, Commands.REPEATS) ==> Carried(d, m, cmd)
    ensures (forall many: nat :: Emits(d, slot, cmd, m, many)) ==> NoOther(d, m, cmd)
  {
    hide Commands.CommandIn, Commands.BeaconData, Commands.AfterBeacons, Commands.Pended;
    if Emits(d, slot, cmd, m, Commands.REPEATS) {
      forall k: nat | m <= k < m + Commands.REPEATS ensures Commands.CommandIn(d.content(k)) == cmd {
        assert d.content(m + (k - m)) == d.content(k);
        Commands.CarriedThirtyTimes(slot, cmd, k - m);
      }
    }
    if forall many: nat :: Emits(d, slot, cmd, m, many) {
      forall k: nat | k >= m ensures Commands.CommandIn(d.content(k)) in {cmd, []} {
        assert Emits(d, slot, cmd, m, k - m + 1);
        assert d.content(m + (k - m)) == d.content(k);
        Commands.CarriedThirtyTimes(slot, cmd, k - m);
      }
    }
  }

  /** No beacon the dongle sends in the window commands this head. */
  ghost predicate Elsewhere(d: Dongle, c: Cycle, myId: nat)
    requires Rising(d.beat) && c.open <= c.close
  {
    forall x :: x in Sent(d, c) ==> !Commands.Addressed(Commands.CommandIn(x), myId)
  }

  /** The dongle announces its presence and commands nothing. */
  ghost predicate Announces(d: Dongle) {
    forall k: nat :: Commands.CommandIn(d.content(k)) == []
  }

  lemma PresenceOnly(d: Dongle, c: Cycle, myId: nat)
    requires Rising(d.beat) && c.open <= c.close && Announces(d)
    ensures Elsewhere(d, c, myId)
  {
    hide Commands.CommandIn;
  }

  /** The command's dongle in range, and up to three others that do not command this head. */
  ghost predicate Heeds(w: Life, i: nat, d: Dongle, others: seq<Dongle>)
    requires w.Timed() && i < |w.cycles|
  {
    && |others| <= 3 && Served(w, i, others + [d]) && d.beat(0) <= w.cycles[i].open
    && Rising(d.beat)
    && forall j :: 0 <= j < |others| ==> Rising(others[j].beat) && Elsewhere(others[j], w.cycles[i], w.myId)
  }

  /** The command was accepted at time `at`, before beacon m and after the one before it. */
  ghost predicate AcceptedAt(d: Dongle, m: nat, at: int) {
    at <= d.beat(m) && (m > 0 ==> d.beat(m - 1) < at)
  }

  /** In a window that opens after the command was accepted and closes by beacon m+30, all of the
      dongle's beacons carry it. */
  lemma AllSentCarry(d: Dongle, c: Cycle, m: nat, at: int, cmd: seq<byte>)
    requires Rising(d.beat) && c.open <= c.close && AcceptedAt(d, m, at) && Carried(d, m, cmd)
    requires at <= c.open && c.close <= d.beat(m + Commands.REPEATS)
    ensures forall x :: x in Sent(d, c) ==> Commands.CommandIn(x) == cmd
  {
    hide Commands.CommandIn;
    var f := First(d.beat, c.open);
    if m > 0 {
      NotBefore(d.beat, m - 1, f);
    }
    forall k | 0 <= k < Heard(d.beat, c) ensures Commands.CommandIn(Sent(d, c)[k]) == cmd {
      HeardAre(d.beat, c, f + k);
      NotBefore(d.beat, f + k, m + Commands.REPEATS);
    }
  }

  /** Such a window delivers the command, and no other for this head. */
  lemma WindowCarries(w: Life, i: nat, d: Dongle, others: seq<Dongle>, m: nat, at: int, cmd: seq<byte>)
    requires Fair(w.timing) && w.Timed() && i < |w.cycles| && Heeds(w, i, d, others)
    requires AcceptedAt(d, m, at) && Carried(d, m, cmd)
    requires at <= w.cycles[i].open && w.cycles[i].close <= d.beat(m + Commands.REPEATS)
    ensures Commands.Carries(w.Delivered(i), cmd)
    ensures Commands.Undisturbed(w.Delivered(i), w.myId, cmd)
  {
    hide Life.Timed, Life.After, Life.Delivered, Life.SleepFrom, Mix, Sent, HeadRadio.Beacons,
      Commands.CommandIn, Commands.Addressed, Carried, AcceptedAt, Fair;
    var c, ds := w.cycles[i], others + [d];
    var b := w.Delivered(i);
    FourDonglesFit(w, i, ds);
    AllSentCarry(d, c, m, at, cmd);
    NextCycle(w, i);
    assert ds[|others|] == d;
    OneOrTwo(w.timing, d.beat, c);
    var first := Sent(d, c)[0];
    MixMembers(ds, c, first);
    assert first in multiset(b);
    var k :| 0 <= k < |b| && b[k] == first;
    forall k | 0 <= k < |b|
      ensures Commands.CommandIn(b[k]) == cmd || !Commands.Addressed(Commands.CommandIn(b[k]), w.myId)
    {
      assert b[k] in multiset(b);
      MixMembers(ds, c, b[k]);
      var j :| 0 <= j < |ds| && b[k] in Sent(ds[j], c);
      assert j < |others| ==> ds[j] == others[j];
    }
  }

  /** Window `n` is the first to open after the command was accepted. */
  ghost predicate FirstAfter(w: Life, n: nat, at: int)
    requires n < |w.cycles|
  {
    at <= w.cycles[n].open && if n == 0 then w.boot <= at else w.cycles[n - 1].open < at
  }

  /** That window and the next both deliver the command, and no other for this head. */
  lemma TwoWindowsHear(w: Life, n: nat, d: Dongle, others: nat -> seq<Dongle>, m: nat, at: int, cmd: seq<byte>)
    requires Fair(w.timing) && Roomy(w.timing) && w.Timed() && n + 2 <= |w.cycles| && w.After(n).phase == Active
    requires Heeds(w, n, d, others(n)) && Heeds(w, n + 1, d, others(n + 1))
    requires AcceptedAt(d, m, at) && FirstAfter(w, n, at) && Carried(d, m, cmd)
    ensures w.After(n + 1).phase == Active
    ensures forall i :: n <= i < n + 2 ==>
              Commands.Carries(w.Delivered(i), cmd) && Commands.Undisturbed(w.Delivered(i), w.myId, cmd)
  {
    hide Life.Timed, Life.After, Life.Delivered, Served, Carried, Commands.Carries, Commands.Undisturbed,
      Elsewhere, Commands.ObeyedAll;
    var ds := others(n) + [d];
    assert ds[|others(n)|] == d;
    FourDonglesFit(w, n, ds);
    NextHead(w, n);
    NextCycle(w, n);
    NextCycle(w, n + 1);
    RepeatsLast(w, n, d, others(n), m);
    WindowCarries(w, n, d, others(n), m, at, cmd);
    WindowCarries(w, n + 1, d, others(n + 1), m, at, cmd);
  }

  lemma RepeatsLast(w: Life, i: nat, d: Dongle, others: seq<Dongle>, m: nat)
    requires w.Timed() && i < |w.cycles| && Heeds(w, i, d, others)
    ensures d.beat(m) + Commands.REPEATS * w.timing.lo <= d.beat(m + Commands.REPEATS)
  {
    hide Life.Timed, Mix, Elsewhere;
    assert (others + [d])[|others|] == d;
    BeatsApart(w.timing, d.beat, m, m + Commands.REPEATS);
  }

  /** Command convergence. A command a dongle accepted and did not replace for its thirty beacons
      takes effect on the addressed head in each of the first two windows that open after that,
      among up to three other dongles that do not command this head, and holds until a window
      hears another command for it. A head with another identifier does not change. */
  lemma {:induction false} Converges(w: Life, n: nat, i: nat, d: Dongle, others: nat -> seq<Dongle>,
                                     m: nat, at: int, cmd: seq<byte>)
    requires Fair(w.timing) && Roomy(w.timing) && w.Timed() && n + 2 <= |w.cycles| && w.After(n).phase == Active
    requires Commands.Admitted(cmd) && AcceptedAt(d, m, at) && FirstAfter(w, n, at) && Carried(d, m, cmd)
    requires Heeds(w, n, d, others(n)) && Heeds(w, n + 1, d, others(n + 1))
    requires n < i <= |w.cycles|
    requires forall j :: n + 2 <= j < i ==> Commands.Undisturbed(w.Delivered(j), w.myId, cmd)
    ensures Commands.Target(cmd) == w.myId ==> Commands.Holds(w.After(i).settings, cmd)
    ensures Commands.Target(cmd) == w.myId && i <= n + 2 ==>
              Commands.Executed(w.After(i - 1).settings, w.After(i).settings, cmd)
    ensures Commands.Target(cmd) != w.myId ==> w.After(i).settings == w.After(n).settings
    decreases i
  {
    hide Commands.Holds, Commands.Executed, Commands.ObeyedAll, Commands.Carries, Commands.Undisturbed, Carried,
      Heeds, Roomy, FirstAfter, AcceptedAt, Life.Timed, Life.After, Life.Delivered, Life.SleepFrom;
    var before := w.After(i - 1).settings;
    NextHead(w, i - 1);
    TwoWindowsHear(w, n, d, others, m, at, cmd);
    if Commands.Target(cmd) == w.myId {
      Commands.ObeyedAllHolds(before, w.myId, w.Delivered(i - 1), cmd);
      ExecutedHolds(before, w.After(i).settings, cmd);
    } else {
      Commands.OthersUnmoved(before, w.myId, w.Delivered(i - 1), cmd);
    }
    if i > n + 1 {
      Converges(w, n, i - 1, d, others, m, at, cmd);
    }
  }

  lemma ExecutedHolds(before: Commands.Config, after: Commands.Config, cmd: seq<byte>)
    requires Commands.Admitted(cmd)
    ensures Commands.Executed(before, after, cmd) ==> Commands.Holds(after, cmd)
  {
  }

  /** What a window delivers comes from a dongle in range, however many there are. */
  lemma DeliveredFrom(w: Life, i: nat, ds: seq<Dongle>, x: seq<byte>)
    requires w.Timed() && i < |w.cycles| && Served(w, i, ds) && x in w.Delivered(i)
    ensures exists j :: 0 <= j < |ds| && x in Sent(ds[j], w.cycles[i])
  {
    hide Life.Timed, Life.After, Life.Delivered, Mix, Sent, HeadRadio.Beacons;
    var heard := HeadRadio.Beacons(w.airs[i].heard);
    DeliveredAre(w, i);
    assert x in heard;
    assert x in multiset(heard);
    MixMembers(ds, w.cycles[i], x);
  }

  /** A window after the acceptance whose dongles are this one and announcing ones commands
      the head nothing else. */
  lemma CalmWindow(w: Life, i: nat, ds: seq<Dongle>, d: Dongle, m: nat, at: int, cmd: seq<byte>)
    requires w.Timed() && i < |w.cycles| && (Works(w.airs[i]) ==> Served(w, i, ds))
    requires AcceptedAt(d, m, at) && NoOther(d, m, cmd) && at <= w.cycles[i].open
    requires forall j :: 0 <= j < |ds| ==> ds[j] == d || Announces(ds[j])
    ensures Commands.Undisturbed(w.Delivered(i), w.myId, cmd)
  {
    hide Life.Timed, Life.After, Life.Delivered, HeadRadio.Beacons, Mix, Sent, Commands.CommandIn,
      Commands.Addressed, Served, AcceptedAt, NoOther, Rising;
    var b, c := w.Delivered(i), w.cycles[i];
    DeliveredAre(w, i);
    forall k | 0 <= k < |b|
      ensures Commands.CommandIn(b[k]) == cmd || !Commands.Addressed(Commands.CommandIn(b[k]), w.myId)
    {
      DeliveredFrom(w, i, ds, b[k]);
      ServedRising(w, i, ds);
      var j :| 0 <= j < |ds| && b[k] in Sent(ds[j], c);
      if ds[j] == d {
        SentLater(d, c, m, at, cmd);
      } else {
        PresenceOnly(ds[j], c, w.myId);
      }
      NothingAddressed(w.myId);
    }
  }

  lemma NothingAddressed(myId: nat)
    ensures !Commands.Addressed([], myId)
  {
  }

  /** All its beacons in a window that opens after the acceptance are m-th or later ones. */
  lemma SentLater(d: Dongle, c: Cycle, m: nat, at: int, cmd: seq<byte>)
    requires Rising(d.beat) && c.open <= c.close && AcceptedAt(d, m, at) && NoOther(d, m, cmd) && at <= c.open
    ensures forall x :: x in Sent(d, c) ==> Commands.CommandIn(x) in {cmd, []}
  {
    hide Commands.CommandIn;
    if m > 0 {
      NotBefore(d.beat, m - 1, First(d.beat, c.open));
    }
  }

  lemma ServedRising(w: Life, i: nat, ds: seq<Dongle>)
    requires w.Timed() && i < |w.cycles| && Served(w, i, ds)
    ensures AllRising(ds) && w.cycles[i].open <= w.cycles[i].close
  {
  }

  /** In the first two windows the command's dongle is in range with up to three others, in the
      later ones whoever is; the others announce their presence and no more. */
  ghost predicate Company(w: Life, n: nat, d: Dongle, ranges: nat -> seq<Dongle>)
    requires w.Timed() && n + 2 <= |w.cycles|
  {
    && (forall j :: n <= j < n + 2 ==>
          && |ranges(j)| <= 3 && Served(w, j, ranges(j) + [d]) && d.beat(0) <= w.cycles[j].open
          && forall x :: 0 <= x < |ranges(j)| ==> Announces(ranges(j)[x]))
    && (forall j :: n + 2 <= j < |w.cycles| ==>
          && (Works(w.airs[j]) ==> Served(w, j, ranges(j)))
          && forall x :: 0 <= x < |ranges(j)| ==> ranges(j)[x] == d || Announces(ranges(j)[x]))
  }

  /** Among dongles that only announce their presence, a command that its dongle does not follow
      with another takes effect in each of the first two windows and holds for good, through
      windows that fail, standby and the dongle's going out of range and coming back. */
  lemma SettledForGood(w: Life, n: nat, i: nat, d: Dongle, ranges: nat -> seq<Dongle>,
                       m: nat, at: int, cmd: seq<byte>)
    requires Fair(w.timing) && Roomy(w.timing) && w.Timed() && n + 2 <= |w.cycles| && w.After(n).phase == Active
    requires Commands.Admitted(cmd) && Commands.Target(cmd) == w.myId
    requires AcceptedAt(d, m, at) && FirstAfter(w, n, at) && Carried(d, m, cmd) && NoOther(d, m, cmd)
    requires Company(w, n, d, ranges) && n < i <= |w.cycles|
    ensures Commands.Holds(w.After(i).settings, cmd)
    ensures i <= n + 2 ==> Commands.Executed(w.After(i - 1).settings, w.After(i).settings, cmd)
  {
    hide Life.Timed, Life.After, Life.Delivered, Life.SleepFrom, Served, Carried, NoOther, AcceptedAt,
      Announces, Elsewhere, Commands.Holds, Commands.Executed, Commands.Undisturbed, Roomy, Fair;
    forall j | n <= j < n + 2 ensures Heeds(w, j, d, ranges(j)) {
      HeedsAnnouncers(w, j, d, ranges(j));
    }
    forall j | n + 2 <= j < i ensures Commands.Undisturbed(w.Delivered(j), w.myId, cmd) {
      OpensLater(w, n, j);
      CalmWindow(w, j, ranges(j), d, m, at, cmd);
    }
    Converges(w, n, i, d, ranges, m, at, cmd);
  }

  lemma HeedsAnnouncers(w: Life, i: nat, d: Dongle, others: seq<Dongle>)
    requires w.Timed() && i < |w.cycles| && |others| <= 3 && Served(w, i, others + [d])
    requires d.beat(0) <= w.cycles[i].open && forall x :: 0 <= x < |others| ==> Announces(others[x])
    ensures Heeds(w, i, d, others)
  {
    hide Life.Timed, Mix, Announces, Elsewhere;
    var ds := others + [d];
    assert ds[|others|] == d;
    forall j | 0 <= j < |others| ensures Rising(others[j].beat) && Elsewhere(others[j], w.cycles[i], w.myId) {
      assert ds[j] == others[j];
      PresenceOnly(others[j], w.cycles[i], w.myId);
    }
  }

  lemma {:induction false} OpensLater(w: Life, n: nat, j: nat)
    requires w.Timed() && n <= j < |w.cycles|
    ensures w.cycles[n].open <= w.cycles[j].open
    decreases j
  {
    hide Life.Timed, Life.After, Life.SleepFrom;
    if j > n {
      OpensLater(w, n, j - 1);
      NextCycle(w, j - 1);
      NextCycle(w, j);
    }
  }
}
