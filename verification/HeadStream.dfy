/** The head's sample stream, firmware/app_head/src/main.c (fusion thread): every sample is fused,
    every tx_div-th one is transmitted, as one or two packets that share one numbering. */
module HeadStream {
  const WRAP16 := 0x1_0000

  /** A count, as the 16-bit variable holds it. */
  function Low16(n: nat): (w: nat)
    ensures w < WRAP16
  {
    n % WRAP16
  }

  datatype Mode = Quat | Raw | Both

  datatype Kind = Orient | RawSample

  /** A packet as it is handed to the radio: its kind and its 16-bit number. */
  datatype Packet = Packet(kind: Kind, seqNo: nat)

  /** What the thread reads when a sample arrives. */
  datatype Tick = Tick(streaming: bool, txDiv: nat, mode: Mode)

  datatype State = State(decim: nat, seqNo: nat)

  const BOOT := State(0, 0)

  predicate Transmits(st: State, t: Tick) {
    t.streaming && st.decim + 1 >= t.txDiv
  }

  function Kinds(mode: Mode): (kinds: seq<Kind>) {
    match mode
    case Quat => [Orient]
    case Raw => [RawSample]
    case Both => [Orient, RawSample]
  }

  /** Packets of the given kinds, numbered from `first` on, modulo 2^16. */
  function Numbered(kinds: seq<Kind>, first: nat): (packets: seq<Packet>)
    ensures |packets| == |kinds|
    ensures forall k :: 0 <= k < |packets| ==> packets[k] == Packet(kinds[k], Low16(first + k))
  {
    seq(|kinds|, k requires 0 <= k < |kinds| => Packet(kinds[k], Low16(first + k)))
  }

  function Packets(st: State, t: Tick): (packets: seq<Packet>) {
    if Transmits(st, t) then Numbered(Kinds(t.mode), st.seqNo) else []
  }

  function Next(st: State, t: Tick): (next: State) {
    State(if !t.streaming || Transmits(st, t) then 0 else st.decim + 1,
          Low16(st.seqNo + |Packets(st, t)|))
  }

  class Streamer {
    var decim: nat
    var seqNo: nat

    ghost function View(): (st: State)
      reads this
    {
      State(decim, seqNo)
    }

    constructor ()
      ensures View() == BOOT
    {
      decim, seqNo := 0, 0;
    }

    /** The next number, with the increment's wrap. */
    method Number() returns (n: nat)
      modifies this`seqNo
      ensures n == old(seqNo) && seqNo == Low16(old(seqNo) + 1)
    {
      n := seqNo;
      seqNo := Low16(seqNo + 1);
    }

    method OnSample(t: Tick) returns (packets: seq<Packet>)
      requires seqNo < WRAP16
      modifies this
      ensures packets == Packets(old(View()), t) && View() == Next(old(View()), t)
      ensures seqNo < WRAP16
    {
      WrapOnce(seqNo);
      WrapOnce(Low16(seqNo + 1));
      WrapAdds(seqNo + 1, 1);
      hide Low16;
      packets := [];
      if !t.streaming {
        decim := 0;
        return;
      }
      decim := decim + 1;
      if decim < t.txDiv {
        return;
      }
      decim := 0;
      if t.mode == Quat || t.mode == Both {
        var n := Number();
        packets := packets + [Packet(Orient, n)];
      }
      if t.mode == Raw || t.mode == Both {
        var n := Number();
        packets := packets + [Packet(RawSample, n)];
      }
    }
  }

  lemma WrapOnce(n: nat)
    requires n < WRAP16
    ensures Low16(n) == n
  {
  }

  // ---- whole runs -------------------------------------------------------------------------------

  function After(ticks: seq<Tick>): (st: State)
    decreases |ticks|
  {
    if ticks == [] then BOOT else Next(After(ticks[..|ticks| - 1]), ticks[|ticks| - 1])
  }

  /** Everything handed to the radio since boot, in order. */
  function Issued(ticks: seq<Tick>): (packets: seq<Packet>)
    decreases |ticks|
  {
    if ticks == [] then []
    else Issued(ticks[..|ticks| - 1]) + Packets(After(ticks[..|ticks| - 1]), ticks[|ticks| - 1])
  }

  /** The packets are numbered from `first` on. */
  predicate Gapless(packets: seq<Packet>, first: nat) {
    forall k :: 0 <= k < |packets| ==> packets[k].seqNo == Low16(first + k)
  }

  /** Whatever mode and rate do, the k-th packet since boot carries the number k, modulo 2^16: both
      kinds share one numbering without a gap. */
  lemma {:induction false} NumbersIssued(ticks: seq<Tick>)
    ensures After(ticks).seqNo == Low16(|Issued(ticks)|) && Gapless(Issued(ticks), 0)
    decreases |ticks|
  {
    hide Low16, Packets, Gapless;
    WrapAdds(0, 0);
    if ticks == [] {
      NoPackets();
    } else {
      var before, t := ticks[..|ticks| - 1], ticks[|ticks| - 1];
      NumbersIssued(before);
      PacketsNumbered(After(before), t);
      GaplessAppend(Issued(before), Packets(After(before), t));
      WrapAdds(|Issued(before)|, |Packets(After(before), t)|);
    }
  }

  lemma NoPackets()
    ensures Gapless([], 0)
  {
  }

  /** Numbering goes on where it stood. */
  lemma GaplessAppend(a: seq<Packet>, b: seq<Packet>)
    requires Gapless(a, 0) && Gapless(b, Low16(|a|))
    ensures Gapless(a + b, 0)
  {
    hide Low16;
    forall k | 0 <= k < |a + b| ensures (a + b)[k].seqNo == Low16(0 + k) {
      if k < |a| {
        assert (a + b)[k] == a[k];
      } else {
        assert (a + b)[k] == b[k - |a|];
        WrapAdds(|a|, k - |a|);
      }
    }
  }

  lemma PacketsNumbered(st: State, t: Tick)
    ensures Gapless(Packets(st, t), st.seqNo)
  {
    hide Transmits, Kinds, Low16;
  }

  lemma WrapAdds(n: nat, k: nat)
    ensures Low16(Low16(n) + k) == Low16(n + k) && Low16(0) == 0
  {
    var q := n / WRAP16;
    assert n + k == q * WRAP16 + (n % WRAP16 + k);
  }

  predicate Steady(ticks: seq<Tick>, div: nat) {
    forall k :: 0 <= k < |ticks| ==> ticks[k].streaming && ticks[k].txDiv == div
  }

  /** How many samples of a run were transmitted. */
  function Transmitted(st: State, ticks: seq<Tick>): (n: nat)
    decreases |ticks|
  {
    if ticks == [] then 0
    else (if Transmits(st, ticks[0]) then 1 else 0) + Transmitted(Next(st, ticks[0]), ticks[1..])
  }

  function RunFrom(st: State, ticks: seq<Tick>): (end: State)
    decreases |ticks|
  {
    if ticks == [] then st else RunFrom(Next(st, ticks[0]), ticks[1..])
  }

  /** While streaming at one rate exactly every tx_div-th sample is transmitted, counted from where
      the decimation stood: what is left over is less than one interval. A count that a lower rate
      left beyond the divider makes the first sample go out, as a count of div - 1 does. */
  lemma {:induction false} EveryNth(st: State, ticks: seq<Tick>, div: nat)
    requires 0 < div && Steady(ticks, div)
    ensures ticks != [] || st.decim < div ==>
              && RunFrom(st, ticks).decim < div
              && Transmitted(st, ticks) * div + RunFrom(st, ticks).decim ==
                 (if st.decim < div then st.decim else div - 1) + |ticks|
    decreases |ticks|
  {
    hide Packets, Low16;
    if ticks != [] {
      var next := Next(st, ticks[0]);
      EveryNth(next, ticks[1..], div);
      var later := Transmitted(next, ticks[1..]);
      assert (1 + later) * div == div + later * div;
    }
  }

  /** The samples transmitted, by the mode they were transmitted in. */
  function ModesSent(ticks: seq<Tick>): (modes: seq<Mode>)
    decreases |ticks|
  {
    if ticks == [] then []
    else
      var before, t := ticks[..|ticks| - 1], ticks[|ticks| - 1];
      ModesSent(before) + if Transmits(After(before), t) then [t.mode] else []
  }

  function KindsOf(packets: seq<Packet>): (kinds: seq<Kind>)
    ensures |kinds| == |packets|
  {
    seq(|packets|, k requires 0 <= k < |packets| => packets[k].kind)
  }

  /** Every sample that is transmitted brings one packet of each kind its mode asks for, orientation
      before raw; nothing else is issued. */
  ghost predicate AsAsked(modes: seq<Mode>, kinds: seq<Kind>)
    decreases |modes|
  {
    if modes == [] then kinds == []
    else
      var before, mode, n := modes[..|modes| - 1], modes[|modes| - 1], |kinds|;
      match mode
      case Quat => n >= 1 && kinds[n - 1] == Orient && AsAsked(before, kinds[..n - 1])
      case Raw => n >= 1 && kinds[n - 1] == RawSample && AsAsked(before, kinds[..n - 1])
      case Both => n >= 2 && kinds[n - 1] == RawSample && kinds[n - 2] == Orient && AsAsked(before, kinds[..n - 2])
  }

  lemma OneAsked(modes: seq<Mode>, kinds: seq<Kind>, mode: Mode)
    requires AsAsked(modes, kinds)
    ensures AsAsked(modes + [mode], kinds + Kinds(mode))
  {
    var more, all := modes + [mode], kinds + Kinds(mode);
    assert more[..|more| - 1] == modes && more[|more| - 1] == mode;
    assert all[..|kinds|] == kinds;
  }

  lemma {:induction false} KindsIssued(ticks: seq<Tick>)
    ensures AsAsked(ModesSent(ticks), KindsOf(Issued(ticks)))
    decreases |ticks|
  {
    hide Transmits, Low16, Next, AsAsked, Kinds;
    if ticks == [] {
      NoneAsked();
    } else {
      var before, t := ticks[..|ticks| - 1], ticks[|ticks| - 1];
      KindsIssued(before);
      var packets := Packets(After(before), t);
      assert KindsOf(Issued(ticks)) == KindsOf(Issued(before)) + KindsOf(packets);
      if Transmits(After(before), t) {
        assert KindsOf(packets) == Kinds(t.mode);
        OneAsked(ModesSent(before), KindsOf(Issued(before)), t.mode);
      } else {
        assert KindsOf(Issued(before)) + [] == KindsOf(Issued(before));
        assert ModesSent(before) + [] == ModesSent(before);
      }
    }
  }

  lemma NoneAsked()
    ensures AsAsked([], KindsOf([]))
  {
  }

  /** In one mode throughout: quaternions only, raw samples only, or both in turn, orientation first. */
  lemma {:induction false} OneMode(modes: seq<Mode>, kinds: seq<Kind>, mode: Mode)
    requires AsAsked(modes, kinds) && forall k :: 0 <= k < |modes| ==> modes[k] == mode
    ensures |kinds| == (if mode == Both then 2 * |modes| else |modes|)
    ensures forall k :: 0 <= k < |kinds| ==>
              kinds[k] == match mode
                          case Quat => Orient
                          case Raw => RawSample
                          case Both => if k % 2 == 0 then Orient else RawSample
    decreases |modes|
  {
    if modes != [] {
      var n := if mode == Both then |kinds| - 2 else |kinds| - 1;
      OneMode(modes[..|modes| - 1], kinds[..n], mode);
      assert forall k :: 0 <= k < n ==> kinds[..n][k] == kinds[k];
    }
  }

  /** While not streaming nothing is issued and no number used, and the decimation starts over. */
  lemma {:induction false} OffIsSilent(st: State, ticks: seq<Tick>)
    requires ticks != [] && forall k :: 0 <= k < |ticks| ==> !ticks[k].streaming
    requires st.seqNo < WRAP16
    ensures Transmitted(st, ticks) == 0 && RunFrom(st, ticks) == State(0, st.seqNo)
    decreases |ticks|
  {
    WrapOnce(st.seqNo);
    if |ticks| > 1 {
      OffIsSilent(Next(st, ticks[0]), ticks[1..]);
    }
  }
}
