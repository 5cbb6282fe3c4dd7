/** Sensor-directed commands from the host to one head unit: the dongle's validation
    (usb_io.c) and its single pending slot carried in beacons (app_dongle/src/radio.c), and
    the head's filter and handling (app_head/src/radio.c, main.c). */
module Commands {
  import opened Wire

  const RESET_FUSION := 0x11
  const SET_RATE := 0x12
  const SET_MODE := 0x13
  const IDENTIFY := 0x15
  const BEACON := 0x20

  const ID_INVALID := 0x0000
  const ID_SIM := 0xFFFF
  const MODE_BOTH := 2

  const PENDING_MAX := 8
  const ESB_MAX := 32
  const HEADER := 2
  const REPEATS := 30
  const ODR := 416

  function Le16(low: byte, high: byte): (x: nat)
    ensures x < 0x1_0000
  {
    low + 256 * high
  }

  predicate SensorDirected(t: byte) {
    t in {RESET_FUSION, IDENTIFY, SET_RATE, SET_MODE}
  }

  function SizeOf(t: byte): (n: nat) {
    if t == SET_RATE then 5 else if t == SET_MODE then 4 else 3
  }

  /** The dongle hands a payload to the radio only when it is a sensor-directed command of
      exactly its type's size and names one concrete tracker. */
  predicate Admitted(payload: seq<byte>) {
    && payload != [] && SensorDirected(payload[0]) && |payload| == SizeOf(payload[0])
    && Le16(payload[1], payload[2]) !in {ID_INVALID, ID_SIM}
  }

  function Target(payload: seq<byte>): (id: nat)
    requires Admitted(payload)
  {
    Le16(payload[1], payload[2])
  }

  // ---- the dongle's slot ----------------------------------------------------------------

  datatype Slot = Slot(cmd: seq<byte>, left: nat, beaconSeq: byte)

  function Pended(slot: Slot, payload: seq<byte>): (next: Slot) {
    if payload == [] || |payload| > PENDING_MAX || |payload| > ESB_MAX - HEADER then slot
    else slot.(cmd := payload, left := REPEATS)
  }

  function BeaconData(slot: Slot): (data: seq<byte>) {
    [BEACON, slot.beaconSeq] + if slot.left > 0 then slot.cmd else []
  }

  function Beaconed(slot: Slot): (next: Slot) {
    slot.(left := if slot.left > 0 then slot.left - 1 else 0,
          beaconSeq := (slot.beaconSeq + 1) % 256)
  }

  /** The slot after `n` beacons with no new command. */
  function AfterBeacons(slot: Slot, n: nat): (next: Slot)
    decreases n
  {
    if n == 0 then slot else Beaconed(AfterBeacons(slot, n - 1))
  }

  lemma {:induction false} AfterBeaconsLeft(slot: Slot, n: nat)
    ensures AfterBeacons(slot, n).cmd == slot.cmd
    ensures AfterBeacons(slot, n).left == if n <= slot.left then slot.left - n else 0
    decreases n
  {
    if n > 0 {
      AfterBeaconsLeft(slot, n - 1);
    }
  }

  lemma {:induction false} BeaconsNumbered(slot: Slot, n: nat)
    ensures AfterBeacons(slot, n).beaconSeq == (slot.beaconSeq + n) % 256
    decreases n
  {
    if n > 0 {
      BeaconsNumbered(slot, n - 1);
      ByteWraps(slot.beaconSeq + n - 1);
    }
  }

  lemma ByteWraps(n: nat)
    ensures (n % 256 + 1) % 256 == (n + 1) % 256
  {
  }

  /** What the command part of a beacon holds. */
  function CommandIn(data: seq<byte>): (cmd: seq<byte>) {
    if |data| <= HEADER then [] else data[HEADER..]
  }

  /** An admitted command that is not replaced rides in exactly the next thirty beacons,
      unaltered, whatever was pending before; later beacons announce presence only. All are
      numbered on, modulo 2^8. */
  lemma CarriedThirtyTimes(slot: Slot, payload: seq<byte>, n: nat)
    requires Admitted(payload)
    ensures var data := BeaconData(AfterBeacons(Pended(slot, payload), n));
      && Receivable(data) && data[1] == (slot.beaconSeq + n) % 256
      && CommandIn(data) == if n < REPEATS then payload else []
  {
    var start := Pended(slot, payload);
    AfterBeaconsLeft(start, n);
    BeaconsNumbered(start, n);
    hide AfterBeacons;
    var data := BeaconData(AfterBeacons(start, n));
    assert n < REPEATS ==> data[HEADER..] == payload;
  }

  class Radio {
    var pendingCmd: seq<byte>
    var repeatsLeft: nat
    var beaconSeq: byte

    ghost function View(): (slot: Slot)
      reads this
    {
      Slot(pendingCmd, repeatsLeft, beaconSeq)
    }

    constructor ()
      ensures View() == Slot([], 0, 0)
    {
      pendingCmd, repeatsLeft, beaconSeq := [], 0, 0;
    }

    /** The latest command wins, and its repeats restart. */
    method SetPendingCmd(payload: seq<byte>)
      modifies this
      ensures View() == Pended(old(View()), payload)
    {
      if |payload| == 0 || |payload| > PENDING_MAX || |payload| > ESB_MAX - HEADER {
        return;
      }
      pendingCmd, repeatsLeft := payload, REPEATS;
    }

    method BeaconWork() returns (data: seq<byte>)
      modifies this
      ensures data == BeaconData(old(View())) && View() == Beaconed(old(View()))
    {
      data := [BEACON, beaconSeq];
      beaconSeq := (beaconSeq + 1) % 256;
      if repeatsLeft > 0 {
        data := data + pendingCmd;
        repeatsLeft := repeatsLeft - 1;
      }
    }
  }

  // ---- the head's handling ----------------------------------------------------------------

  /** The head's settings, and how often it was reset or asked to identify itself. */
  datatype Config = Config(mode: nat, rate: nat, txDiv: nat, resets: nat, identifies: nat)

  const DEFAULTS := Config(0, 208, ODR / 208, 0, 0)

  /** What the head's radio handler queues: any beacon, with or without a command. */
  predicate Receivable(data: seq<byte>) {
    |data| >= HEADER && data[0] == BEACON
  }

  const RATES: seq<nat> := [52, 104, 208, 416]

  function Distance(hz: nat, rate: nat): (d: nat) {
    if hz > rate then hz - rate else rate - hz
  }

  /** The supported rate nearest to `hz`, the lower one on a tie. */
  function NearestRate(hz: nat): (best: nat) {
    if hz <= 78 then 52 else if hz <= 156 then 104 else if hz <= 312 then 208 else 416
  }

  /** No supported rate is nearer, and a lower one is strictly farther. */
  lemma NearestIsNearest(hz: nat)
    ensures NearestRate(hz) in RATES
    ensures forall r :: r in RATES ==>
              Distance(hz, NearestRate(hz)) <= Distance(hz, r) &&
              (r < NearestRate(hz) ==> Distance(hz, NearestRate(hz)) < Distance(hz, r))
    ensures ODR / NearestRate(hz) * NearestRate(hz) == ODR
  {
  }

  function RateSet(c: Config, hz: nat): (next: Config) {
    c.(rate := NearestRate(hz), txDiv := ODR / NearestRate(hz))
  }

  /** A command of a known kind, long enough, with this unit's identifier. */
  predicate Addressed(cmd: seq<byte>, myId: nat) {
    cmd != [] && SensorDirected(cmd[0]) && |cmd| >= SizeOf(cmd[0]) && Le16(cmd[1], cmd[2]) == myId
  }

  /** One command, as the unit with identifier `myId` takes it. */
  function Obeyed(c: Config, myId: nat, cmd: seq<byte>): (next: Config) {
    if !Addressed(cmd, myId) then c
    else if cmd[0] == RESET_FUSION then c.(resets := c.resets + 1)
    else if cmd[0] == IDENTIFY then c.(identifies := c.identifies + 1)
    else if cmd[0] == SET_RATE then RateSet(c, Le16(cmd[3], cmd[4]))
    else if cmd[3] > MODE_BOTH then c else c.(mode := cmd[3])
  }

  /** The unit holds what the command asks of it. */
  predicate Holds(c: Config, cmd: seq<byte>)
    requires Admitted(cmd)
  {
    && (cmd[0] == SET_RATE ==>
          c.rate == NearestRate(Le16(cmd[3], cmd[4])) && c.txDiv * c.rate == ODR)
    && (cmd[0] == SET_MODE && cmd[3] <= MODE_BOTH ==> c.mode == cmd[3])
  }

  /** The two differ at most in their counts of actions. */
  predicate SameSettings(a: Config, b: Config) {
    a.mode == b.mode && a.rate == b.rate && a.txDiv == b.txDiv
  }

  /** The addressed unit obeys an admitted command, and repeats of it change no setting. */
  lemma ObeyedHolds(c: Config, myId: nat, cmd: seq<byte>)
    requires Admitted(cmd) && Target(cmd) == myId
    ensures Holds(Obeyed(c, myId, cmd), cmd)
    ensures SameSettings(Obeyed(Obeyed(c, myId, cmd), myId, cmd), Obeyed(c, myId, cmd))
  {
    if cmd[0] == SET_RATE {
      NearestIsNearest(Le16(cmd[3], cmd[4]));
    }
  }

  /** No other unit is affected. */
  lemma OthersIgnore(c: Config, myId: nat, cmd: seq<byte>)
    requires Admitted(cmd) && Target(cmd) != myId
    ensures Obeyed(c, myId, cmd) == c
  {
  }

  /** All the beacons of one listen window, in order of arrival. */
  function ObeyedAll(c: Config, myId: nat, beacons: seq<seq<byte>>): (next: Config)
    decreases |beacons|
  {
    if beacons == [] then c
    else Obeyed(ObeyedAll(c, myId, beacons[..|beacons| - 1]), myId,
                CommandIn(beacons[|beacons| - 1]))
  }

  /** The command took effect between two moments: a setting holds, an action happened. */
  predicate Executed(before: Config, after: Config, cmd: seq<byte>)
    requires Admitted(cmd)
  {
    && Holds(after, cmd)
    && (cmd[0] == RESET_FUSION ==> after.resets > before.resets)
    && (cmd[0] == IDENTIFY ==> after.identifies > before.identifies)
  }

  /** No beacon carries a command for this unit, other than `cmd`. */
  ghost predicate Undisturbed(beacons: seq<seq<byte>>, myId: nat, cmd: seq<byte>) {
    forall k :: 0 <= k < |beacons| ==>
      CommandIn(beacons[k]) == cmd || !Addressed(CommandIn(beacons[k]), myId)
  }

  /** Some beacon carries the command. */
  ghost predicate Carries(beacons: seq<seq<byte>>, cmd: seq<byte>) {
    exists k :: 0 <= k < |beacons| && CommandIn(beacons[k]) == cmd
  }

  lemma UndisturbedPrefix(beacons: seq<seq<byte>>, myId: nat, cmd: seq<byte>)
    requires Undisturbed(beacons, myId, cmd) && beacons != []
    ensures Undisturbed(beacons[..|beacons| - 1], myId, cmd)
    ensures Carries(beacons, cmd) && CommandIn(beacons[|beacons| - 1]) != cmd ==>
              Carries(beacons[..|beacons| - 1], cmd)
  {
    var start := beacons[..|beacons| - 1];
    if Carries(beacons, cmd) && CommandIn(beacons[|beacons| - 1]) != cmd {
      var k :| 0 <= k < |beacons| && CommandIn(beacons[k]) == cmd;
      assert start[k] == beacons[k];
    }
  }

  /** Beacons with no command for a unit leave it as it was, whatever else they carry. */
  lemma {:induction false} OthersUnmoved(c: Config, myId: nat, beacons: seq<seq<byte>>, cmd: seq<byte>)
    requires Admitted(cmd) && Target(cmd) != myId && Undisturbed(beacons, myId, cmd)
    ensures ObeyedAll(c, myId, beacons) == c
    decreases |beacons|
  {
    hide Addressed, CommandIn;
    if beacons != [] {
      UndisturbedPrefix(beacons, myId, cmd);
      OthersUnmoved(c, myId, beacons[..|beacons| - 1], cmd);
      NotAddressed(myId, cmd);
    }
  }

  lemma NotAddressed(myId: nat, cmd: seq<byte>)
    requires Admitted(cmd) && Target(cmd) != myId
    ensures !Addressed(cmd, myId)
  {
  }

  lemma ObeyedOnce(before: Config, c: Config, myId: nat, cmd: seq<byte>)
    requires Admitted(cmd) && Target(cmd) == myId
    requires c.resets >= before.resets && c.identifies >= before.identifies
    ensures Executed(before, Obeyed(c, myId, cmd), cmd)
  {
    ObeyedHolds(c, myId, cmd);
  }

  lemma {:induction false} CountsGrow(c: Config, myId: nat, beacons: seq<seq<byte>>)
    ensures ObeyedAll(c, myId, beacons).resets >= c.resets
    ensures ObeyedAll(c, myId, beacons).identifies >= c.identifies
    decreases |beacons|
  {
    if beacons != [] {
      CountsGrow(c, myId, beacons[..|beacons| - 1]);
    }
  }

  /** On the addressed unit the command has taken effect after a window that heard it and no
      other command for this unit, and a later window without another one keeps it. */
  lemma {:induction false} ObeyedAllHolds(c: Config, myId: nat, beacons: seq<seq<byte>>, cmd: seq<byte>)
    requires Admitted(cmd) && Target(cmd) == myId && Undisturbed(beacons, myId, cmd)
    ensures Holds(c, cmd) ==> Holds(ObeyedAll(c, myId, beacons), cmd)
    ensures Carries(beacons, cmd) ==> Executed(c, ObeyedAll(c, myId, beacons), cmd)
    decreases |beacons|
  {
    hide Obeyed, Holds, Executed, Addressed, CommandIn, Carries;
    if beacons == [] {
      CarriesNothing(cmd);
    } else {
      var start, last := beacons[..|beacons| - 1], CommandIn(beacons[|beacons| - 1]);
      UndisturbedPrefix(beacons, myId, cmd);
      ObeyedAllHolds(c, myId, start, cmd);
      if last == cmd {
        CountsGrow(c, myId, start);
        ObeyedOnce(c, ObeyedAll(c, myId, start), myId, cmd);
        ObeyedHolds(ObeyedAll(c, myId, start), myId, cmd);
      } else {
        Ignored(ObeyedAll(c, myId, start), myId, last);
      }
    }
  }

  lemma CarriesNothing(cmd: seq<byte>)
    ensures !Carries([], cmd)
  {
  }

  lemma Ignored(c: Config, myId: nat, cmd: seq<byte>)
    requires !Addressed(cmd, myId)
    ensures Obeyed(c, myId, cmd) == c
  {
  }

  // ---- what a command must leave alone ------------------------------------------------------

  /** A command of that kind for the unit, with all of its `size` bytes. */
  predicate For(cmd: seq<byte>, myId: nat, kind: byte, size: nat) {
    |cmd| >= 3 && |cmd| >= size && cmd[0] == kind && Le16(cmd[1], cmd[2]) == myId
  }

  predicate SetsMode(cmd: seq<byte>, myId: nat) {
    For(cmd, myId, SET_MODE, 4) && cmd[3] <= MODE_BOTH
  }

  predicate SetsRate(cmd: seq<byte>, myId: nat) {
    For(cmd, myId, SET_RATE, 5)
  }

  /** Each field changes on its own command only, and then as asked. */
  lemma OnlyAsked(c: Config, myId: nat, cmd: seq<byte>)
    ensures var next := Obeyed(c, myId, cmd);
      && next.mode == (if SetsMode(cmd, myId) then cmd[3] else c.mode)
      && next.rate == (if SetsRate(cmd, myId) then NearestRate(Le16(cmd[3], cmd[4])) else c.rate)
      && next.txDiv == (if SetsRate(cmd, myId) then ODR / next.rate else c.txDiv)
      && next.resets == c.resets + (if For(cmd, myId, RESET_FUSION, 3) then 1 else 0)
      && next.identifies == c.identifies + (if For(cmd, myId, IDENTIFY, 3) then 1 else 0)
  {
  }

  /** The last of the beacons whose command satisfies `p`. */
  function Latest(beacons: seq<seq<byte>>, p: seq<byte> -> bool): (cmd: Option<seq<byte>>)
    ensures cmd.Some? ==> p(cmd.value)
    ensures cmd.Some? <==> exists k :: 0 <= k < |beacons| && p(CommandIn(beacons[k]))
    decreases |beacons|
  {
    if beacons == [] then None
    else
      var start, last := beacons[..|beacons| - 1], CommandIn(beacons[|beacons| - 1]);
      if p(last) then Some(last)
      else
        assert (exists k :: 0 <= k < |beacons| && p(CommandIn(beacons[k]))) ==>
            exists k :: 0 <= k < |start| && p(CommandIn(start[k])) by {
          if k :| 0 <= k < |beacons| && p(CommandIn(beacons[k])) {
            assert start[k] == beacons[k];
          }
        }
        assert (exists k :: 0 <= k < |start| && p(CommandIn(start[k]))) ==>
            exists k :: 0 <= k < |beacons| && p(CommandIn(beacons[k])) by {
          if k :| 0 <= k < |start| && p(CommandIn(start[k])) {
            assert start[k] == beacons[k];
          }
        }
        Latest(start, p)
  }

  function Count(beacons: seq<seq<byte>>, p: seq<byte> -> bool): (n: nat)
    decreases |beacons|
  {
    if beacons == [] then 0
    else
      Count(beacons[..|beacons| - 1], p) + if p(CommandIn(beacons[|beacons| - 1])) then 1 else 0
  }

  /** The settings a unit that started from `c` has after the beacons: its mode and rate are those
      of the last legal command for each, or still the first ones, and it was reset and identified
      itself as often as it was told to. */
  ghost predicate HeardSettings(end: Config, c: Config, myId: nat, beacons: seq<seq<byte>>) {
    var mode, rate := Latest(beacons, cmd => SetsMode(cmd, myId)), Latest(beacons, cmd => SetsRate(cmd, myId));
    && end.mode == (if mode.Some? then mode.value[3] else c.mode)
    && end.rate == (if rate.Some? then NearestRate(Le16(rate.value[3], rate.value[4])) else c.rate)
    && end.txDiv == (if rate.Some? then ODR / end.rate else c.txDiv)
    && end.resets == c.resets + Count(beacons, cmd => For(cmd, myId, RESET_FUSION, 3))
    && end.identifies == c.identifies + Count(beacons, cmd => For(cmd, myId, IDENTIFY, 3))
  }

  lemma {:induction false} SettingsHistory(c: Config, myId: nat, beacons: seq<seq<byte>>)
    ensures HeardSettings(ObeyedAll(c, myId, beacons), c, myId, beacons)
    decreases |beacons|
  {
    hide Obeyed, For, CommandIn, NearestRate;
    if beacons != [] {
      var start := beacons[..|beacons| - 1];
      SettingsHistory(c, myId, start);
      OnlyAsked(ObeyedAll(c, myId, start), myId, CommandIn(beacons[|beacons| - 1]));
    }
  }

  lemma {:induction false} ObeyedAllAppend(c: Config, myId: nat, a: seq<seq<byte>>, b: seq<seq<byte>>)
    ensures ObeyedAll(c, myId, a + b) == ObeyedAll(ObeyedAll(c, myId, a), myId, b)
    decreases |b|
  {
    hide Obeyed, CommandIn;
    if b == [] {
      assert a + b == a;
    } else {
      ObeyedAllAppend(c, myId, a, b[..|b| - 1]);
      assert (a + b)[..|a + b| - 1] == a + b[..|b| - 1];
    }
  }

  class HeadSettings {
    const myId: nat
    var mode: nat
    var rate: nat
    var txDiv: nat
    var resets: nat
    var identifies: nat

    ghost function View(): (c: Config)
      reads this
    {
      Config(mode, rate, txDiv, resets, identifies)
    }

    constructor (id: nat)
      ensures myId == id && View() == DEFAULTS
    {
      myId := id;
      mode, rate, txDiv, resets, identifies := 0, 208, ODR / 208, 0, 0;
    }

    /** The search for the nearest rate. */
    method SetRate(hz: nat)
      requires hz < 0x1_0000
      modifies this`rate, this`txDiv
      ensures View() == RateSet(old(View()), hz)
    {
      var best, bestD := RATES[0], 0x7FFF_FFFF;
      for i := 0 to |RATES|
        invariant i == 0 ==> bestD == 0x7FFF_FFFF
        invariant i > 0 ==> bestD == Distance(hz, best)
        invariant i == 1 ==> best == 52
        invariant i == 2 ==> best == if hz <= 78 then 52 else 104
        invariant i == 3 ==> best == if hz <= 78 then 52 else if hz <= 156 then 104 else 208
        invariant i == 4 ==> best == NearestRate(hz)
      {
        var d := if hz > RATES[i] then hz - RATES[i] else RATES[i] - hz;
        if d < bestD {
          bestD, best := d, RATES[i];
        }
      }
      rate, txDiv := best, ODR / best;
    }

    method HandleBeacon(data: seq<byte>)
      requires Receivable(data)
      modifies this
      ensures View() == Obeyed(old(View()), myId, CommandIn(data))
    {
      var cmd := data[HEADER..];
      var len := |data| - HEADER;
      if len == 0 {
        return;
      }
      if cmd[0] == RESET_FUSION {
        if len < 3 {
          return;
        }
        if Le16(cmd[1], cmd[2]) != myId {
          return;
        }
        resets := resets + 1;
      } else if cmd[0] == SET_RATE {
        if len < 5 {
          return;
        }
        if Le16(cmd[1], cmd[2]) != myId {
          return;
        }
        SetRate(Le16(cmd[3], cmd[4]));
      } else if cmd[0] == SET_MODE {
        if len < 4 {
          return;
        }
        if Le16(cmd[1], cmd[2]) != myId || cmd[3] > MODE_BOTH {
          return;
        }
        mode := cmd[3];
      } else if cmd[0] == IDENTIFY {
        if len < 3 {
          return;
        }
        if Le16(cmd[1], cmd[2]) != myId {
          return;
        }
        identifies := identifies + 1;
      }
    }
  }
}
