/** firmware/app_head/src/radio.c: the head's beacon queue, its listen window and the rules by
    which it drops samples. The radio stack's own verdicts are parameters. */
module HeadRadio {
  import opened Wire
  import Commands

  const QUEUE := 8
  const MAX_LEN := 32

  /** What became of one payload: accepted by the stack for transmission, or why not. */
  datatype Verdict = Taken | TooLong | Busy | NotTransmitting | Refused

  /** What the stack says to one write. */
  datatype Write = Accepted | Full | Failed

  /** Everything the file keeps: the mode, the queued beacons and the counters; and the payloads
      the stack accepted, of which it may yet discard a backlog when its FIFO is full. */
  datatype State = State(inPtx: bool, queue: seq<seq<byte>>, accepted: seq<seq<byte>>,
                         listens: nat, cfgFail: nat, rxEvents: nat, queued: nat)

  datatype Event =
    | Window(rxConfigured: bool, rxStarted: bool, heard: seq<seq<byte>>, txOk: bool)
    | Send(payload: seq<byte>, lockFree: bool, first: Write, second: Write)
    | Get

  function Cut(p: seq<byte>): (b: seq<byte>) {
    if |p| <= MAX_LEN then p else p[..MAX_LEN]
  }

  /** One payload in the receive handler. */
  function Heard(st: State, p: seq<byte>): (next: State) {
    var seen := st.(rxEvents := st.rxEvents + 1);
    if !Commands.Receivable(p) || |st.queue| >= QUEUE then seen
    else seen.(queue := st.queue + [Cut(p)], queued := st.queued + 1)
  }

  function HeardAll(st: State, heard: seq<seq<byte>>): (next: State)
    decreases |heard|
  {
    if heard == [] then st else Heard(HeardAll(st, heard[..|heard| - 1]), heard[|heard| - 1])
  }

  /** A window: listening works or is counted as a failure; the mode follows the last
      configuration that worked. */
  function Listened(st: State, rxConfigured: bool, rxStarted: bool, heard: seq<seq<byte>>, txOk: bool): (next: State) {
    var began := st.(listens := st.listens + 1, inPtx := if rxConfigured then false else st.inPtx);
    var done := if rxConfigured && rxStarted then HeardAll(began, heard)
                else began.(cfgFail := began.cfgFail + 1);
    done.(inPtx := if txOk then true else done.inPtx)
  }

  function Judged(st: State, payload: seq<byte>, lockFree: bool, first: Write, second: Write): (v: Verdict) {
    if |payload| > MAX_LEN then TooLong
    else if !lockFree then Busy
    else if !st.inPtx then NotTransmitting
    else if first == Accepted || (first == Full && second == Accepted) then Taken
    else Refused
  }

  function Sent(st: State, payload: seq<byte>, lockFree: bool, first: Write, second: Write): (next: State) {
    if Judged(st, payload, lockFree, first, second) == Taken then st.(accepted := st.accepted + [payload]) else st
  }

  class Radio {
    var inPtx: bool
    var queue: seq<seq<byte>>
    var accepted: seq<seq<byte>>
    var listens: nat
    var cfgFail: nat
    var rxEvents: nat
    var queued: nat

    ghost function View(): (st: State)
      reads this
    {
      State(inPtx, queue, accepted, listens, cfgFail, rxEvents, queued)
    }

    constructor (txOk: bool)
      ensures View() == State(txOk, [], [], 0, 0, 0, 0)
    {
      inPtx, queue, accepted, listens, cfgFail, rxEvents, queued := txOk, [], [], 0, 0, 0, 0;
    }

    /** The receive handler's loop; a full queue drops what comes. */
    method Receive(heard: seq<seq<byte>>)
      modifies this
      ensures View() == HeardAll(old(View()), heard)
    {
      var k := 0;
      assert heard[..0] == [];
      while k < |heard|
        invariant 0 <= k <= |heard|
        invariant View() == HeardAll(old(View()), heard[..k])
      {
        var p := heard[k];
        assert heard[..k + 1][..k] == heard[..k];
        rxEvents := rxEvents + 1;
        if Commands.Receivable(p) {
          if |queue| < QUEUE {
            queue := queue + [Cut(p)];
            queued := queued + 1;
          }
        }
        k := k + 1;
      }
      assert heard[..|heard|] == heard;
    }

    method Listen(rxConfigured: bool, rxStarted: bool, heard: seq<seq<byte>>, txOk: bool)
      modifies this
      ensures View() == Listened(old(View()), rxConfigured, rxStarted, heard, txOk)
    {
      listens := listens + 1;
      if rxConfigured {
        inPtx := false;
      }
      if rxConfigured && rxStarted {
        Receive(heard);
      } else {
        cfgFail := cfgFail + 1;
      }
      if txOk {
        inPtx := true;
      }
    }

    /** Never waits: a sample that cannot go now is dropped. A full stack is flushed once. */
    method Transmit(payload: seq<byte>, lockFree: bool, first: Write, second: Write) returns (v: Verdict)
      modifies this
      ensures v == Judged(old(View()), payload, lockFree, first, second)
      ensures View() == Sent(old(View()), payload, lockFree, first, second)
    {
      if |payload| > MAX_LEN {
        return TooLong;
      }
      if !lockFree {
        return Busy;
      }
      if !inPtx {
        return NotTransmitting;
      }
      var err := first;
      if err == Full {
        err := second;
      }
      if err != Accepted {
        return Refused;
      }
      accepted := accepted + [payload];
      return Taken;
    }

    method BeaconGet() returns (b: Option<seq<byte>>)
      modifies this`queue
      ensures old(queue) == [] ==> b == None && queue == []
      ensures old(queue) != [] ==> b == Some(old(queue)[0]) && queue == old(queue)[1..]
    {
      if queue == [] {
        return None;
      }
      b, queue := Some(queue[0]), queue[1..];
    }
  }

  // ---- what a window delivers -------------------------------------------------------------------

  /** The beacons among what was heard, in order. */
  function Beacons(heard: seq<seq<byte>>): (b: seq<seq<byte>>)
    decreases |heard|
  {
    if heard == [] then []
    else
      var p := heard[|heard| - 1];
      Beacons(heard[..|heard| - 1]) + if Commands.Receivable(p) then [Cut(p)] else []
  }

  function FirstFew(s: seq<seq<byte>>): (t: seq<seq<byte>>) {
    if |s| <= QUEUE then s else s[..QUEUE]
  }

  /** The queue a window leaves is what was queued before it and the beacons it heard, in order,
      as far as eight go: nothing else enters, and nothing queued is overwritten. */
  lemma {:induction false} QueueKeepsFirst(st: State, heard: seq<seq<byte>>)
    requires |st.queue| <= QUEUE
    ensures HeardAll(st, heard).queue == FirstFew(st.queue + Beacons(heard))
    ensures HeardAll(st, heard).queued - st.queued == |HeardAll(st, heard).queue| - |st.queue|
    ensures HeardAll(st, heard).accepted == st.accepted
    decreases |heard|
  {
    if heard == [] {
      assert st.queue + [] == st.queue;
    } else {
      var p := heard[|heard| - 1];
      var before := heard[..|heard| - 1];
      QueueKeepsFirst(st, before);
      assert st.queue + (Beacons(before) + [Cut(p)]) == st.queue + Beacons(before) + [Cut(p)];
      assert Beacons(before) + [] == Beacons(before);
    }
  }

  /** What the control loop drains after a window that started on an empty queue are the first
      eight beacons heard, hence all of them if there are no more, and none if listening failed;
      and each is one it can handle. */
  lemma WindowDelivers(st: State, rxConfigured: bool, rxStarted: bool, heard: seq<seq<byte>>, txOk: bool)
    requires st.queue == []
    ensures var q := Listened(st, rxConfigured, rxStarted, heard, txOk).queue;
      && q == (if rxConfigured && rxStarted then FirstFew(Beacons(heard)) else [])
      && forall k :: 0 <= k < |q| ==> Commands.Receivable(q[k]) && |q[k]| <= MAX_LEN
  {
    var began := st.(listens := st.listens + 1, inPtx := if rxConfigured then false else st.inPtx);
    QueueKeepsFirst(began, heard);
    assert began.queue + Beacons(heard) == Beacons(heard);
    BeaconsReceivable(heard);
  }

  lemma {:induction false} BeaconsReceivable(heard: seq<seq<byte>>)
    ensures forall k :: 0 <= k < |Beacons(heard)| ==>
              Commands.Receivable(Beacons(heard)[k]) && |Beacons(heard)[k]| <= MAX_LEN
    decreases |heard|
  {
    if heard != [] {
      BeaconsReceivable(heard[..|heard| - 1]);
    }
  }

  // ---- the drop rules, over whole runs ------------------------------------------------------------

  function Step(st: State, e: Event): (next: State) {
    match e
    case Window(rxConfigured, rxStarted, heard, txOk) => Listened(st, rxConfigured, rxStarted, heard, txOk)
    case Send(payload, lockFree, first, second) => Sent(st, payload, lockFree, first, second)
    case Get => if st.queue == [] then st else st.(queue := st.queue[1..])
  }

  function Run(st: State, events: seq<Event>): (end: State)
    decreases |events|
  {
    if events == [] then st else Step(Run(st, events[..|events| - 1]), events[|events| - 1])
  }

  /** No window of the run restores transmission. */
  ghost predicate NeverRestored(events: seq<Event>) {
    forall k :: 0 <= k < |events| && events[k].Window? ==> !events[k].txOk
  }

  /** Once a window has left the radio in receive mode, the stack accepts nothing until a later
      window restores transmission, whatever is sent and whatever the stack would say. */
  lemma {:induction false} DeafMeansSilent(st: State, events: seq<Event>)
    requires !st.inPtx && |st.queue| <= QUEUE && NeverRestored(events)
    ensures Run(st, events).accepted == st.accepted && !Run(st, events).inPtx
    ensures |Run(st, events).queue| <= QUEUE
    decreases |events|
  {
    if events != [] {
      var before, e := events[..|events| - 1], events[|events| - 1];
      DeafMeansSilent(st, before);
      var t := Run(st, before);
      if e.Window? && e.rxConfigured && e.rxStarted {
        var began := t.(listens := t.listens + 1, inPtx := false);
        QueueKeepsFirst(began, e.heard);
        ModeKept(began, e.heard);
      }
    }
  }

  lemma {:induction false} ModeKept(st: State, heard: seq<seq<byte>>)
    ensures HeardAll(st, heard).inPtx == st.inPtx
    ensures HeardAll(st, heard).listens == st.listens && HeardAll(st, heard).cfgFail == st.cfgFail
    decreases |heard|
  {
    if heard != [] {
      ModeKept(st, heard[..|heard| - 1]);
    }
  }

  // ---- what is sent ---------------------------------------------------------------------------

  /** Whether the radio transmits after the events: what the last window left. */
  function Transmitting(start: bool, events: seq<Event>): (on: bool)
    decreases |events|
  {
    if events == [] then start
    else
      var before, e := events[..|events| - 1], events[|events| - 1];
      if e.Window? && e.txOk then true
      else if e.Window? && e.rxConfigured then false
      else Transmitting(start, before)
  }

  /** How many windows there were, and in how many listening failed. */
  function Windows(events: seq<Event>, failed: bool): (n: nat)
    decreases |events|
  {
    if events == [] then 0
    else
      var e := events[|events| - 1];
      Windows(events[..|events| - 1], failed) +
      if e.Window? && (failed ==> !(e.rxConfigured && e.rxStarted)) then 1 else 0
  }

  lemma {:induction false} ModeIs(st: State, events: seq<Event>)
    ensures Run(st, events).inPtx == Transmitting(st.inPtx, events)
    ensures Run(st, events).listens == st.listens + Windows(events, false)
    ensures Run(st, events).cfgFail == st.cfgFail + Windows(events, true)
    decreases |events|
  {
    if events != [] {
      var before, e := events[..|events| - 1], events[|events| - 1];
      ModeIs(st, before);
      if e.Window? {
        var t := Run(st, before);
        ModeKept(t.(listens := t.listens + 1, inPtx := if e.rxConfigured then false else t.inPtx), e.heard);
      }
    }
  }

  /** After any run, a payload is taken exactly if it fits a packet, no window is open, the last window
      left the radio transmitting, and the stack accepts it at once or after one flush; and it is then
      the only thing that changes. */
  lemma SendIff(st: State, events: seq<Event>, payload: seq<byte>, lockFree: bool, first: Write, second: Write)
    ensures var before := Run(st, events);
      var after := Run(st, events + [Send(payload, lockFree, first, second)]);
      if |payload| <= 32 && lockFree && Transmitting(st.inPtx, events) &&
         (first == Accepted || (first == Full && second == Accepted))
      then after == before.(accepted := before.accepted + [payload])
      else after == before
  {
    var all := events + [Send(payload, lockFree, first, second)];
    assert all[..|all| - 1] == events && all[|all| - 1] == Send(payload, lockFree, first, second);
    ModeIs(st, events);
  }
}
