/** The dongle's transmit pipe, firmware/app_dongle/src/usb_io.c: whole frames go into a
    2048-byte ring as [length][bytes]; the interrupt handler takes one frame at a time and
    hands it to the USB stack in fills of any size.

    `Step` is one atomic action; the class performs it on the ring. Whatever the order of
    actions, the wire carries a prefix of the accepted frames, and a host parser fed that
    prefix gets back the payloads of its complete frames and nothing else. */
module UsbPipe {
  import opened Wire
  import Frame
  import Parser
  import opened Ring

  type Payload = Frame.Payload

  const RING := 2048

  /** What the ring holds, what is left of the frame in flight, what reached the wire, the
      payloads accepted so far and the number dropped. */
  datatype State = State(configured: bool, queue: seq<seq<byte>>, current: seq<byte>,
                         wire: seq<byte>, accepted: seq<Payload>, dropped: nat)

  const START := State(false, [], [], [], [], 0)

  datatype Event =
    | Configure(on: bool)
    | Send(payload: Payload)
    | Fetch
    | Fill(room: nat)

  /** How many ring bytes the queued entries take: each frame and its length byte. */
  function Used(queue: seq<seq<byte>>): (n: nat) {
    if queue == [] then 0 else Used(queue[..|queue| - 1]) + |queue[|queue| - 1]| + 1
  }

  /** A whole frame is queued or the whole frame is dropped. */
  function Sent(st: State, payload: Payload): (next: State) {
    var frame := Frame.FrameOf(payload);
    if !Frame.Sendable(payload) || !st.configured then st
    else if Used(st.queue) + |frame| + 1 <= RING then
      st.(queue := st.queue + [frame], accepted := st.accepted + [payload])
    else st.(dropped := st.dropped + 1)
  }

  /** With nothing in flight, the oldest queued frame is taken. */
  function Fetched(st: State): (next: State) {
    if st.current != [] || st.queue == [] then st
    else st.(queue := st.queue[1..], current := st.queue[0])
  }

  /** The USB stack takes as much of the frame in flight as it has room for. */
  function Filled(st: State, room: nat): (next: State) {
    var n := if room < |st.current| then room else |st.current|;
    st.(wire := st.wire + st.current[..n], current := st.current[n..])
  }

  function Step(st: State, e: Event): (next: State) {
    match e
    case Configure(on) => st.(configured := on)
    case Send(payload) => Sent(st, payload)
    case Fetch => Fetched(st)
    case Fill(room) => Filled(st, room)
  }

  function Run(events: seq<Event>): (st: State)
    decreases |events|
  {
    if events == [] then START
    else Step(Run(events[..|events| - 1]), events[|events| - 1])
  }

  // ---- order and integrity of the wire ------------------------------------------------

  /** Nothing is lost, split or reordered between acceptance and the wire. */
  ghost predicate Conserved(st: State) {
    && Parser.AllSendable(st.accepted)
    && st.wire + (st.current + Concat(st.queue)) == Concat(Parser.Frames(st.accepted))
  }

  /** A queued frame is never empty and always fits the in-flight buffer; all of them, with their
      length bytes, fit the ring. */
  ghost predicate Bounded(st: State) {
    Frames(st.queue) && |st.current| < Frame.MAX_FRAME && Used(st.queue) <= RING
  }

  lemma {:induction false} UsedTail(queue: seq<seq<byte>>)
    requires queue != []
    ensures Used(queue) == |queue[0]| + 1 + Used(queue[1..])
    decreases |queue|
  {
    if |queue| > 1 {
      var start := queue[..|queue| - 1];
      UsedTail(start);
      assert start[1..] == queue[1..][..|queue| - 2];
    }
  }

  lemma StepBounded(st: State, e: Event)
    requires Bounded(st)
    ensures Bounded(Step(st, e))
  {
    hide Frame.FrameOf, Frame.Sendable;
    match e {
      case Configure(on) =>
      case Send(payload) =>
        if Frame.Sendable(payload) {
          Frame.FrameShape(payload);
          FrameLength(payload);
          assert (st.queue + [Frame.FrameOf(payload)])[..|st.queue|] == st.queue;
        }
      case Fetch =>
        if st.queue != [] {
          UsedTail(st.queue);
        }
      case Fill(room) =>
    }
  }

  lemma FrameLength(payload: Payload)
    requires Frame.Sendable(payload)
    ensures 0 < |Frame.FrameOf(payload)| < Frame.MAX_FRAME
  {
    hide Frame.BlockOf;
    Frame.FrameShape(payload);
  }

  lemma SentConserves(st: State, payload: Payload)
    requires Conserved(st)
    ensures Conserved(Sent(st, payload))
  {
    hide Frame.FrameOf, Used;
    var frame := Frame.FrameOf(payload);
    ConcatAppend(st.queue, [frame]);
    ConcatOne(frame);
    ConcatAppend(Parser.Frames(st.accepted), [frame]);
    assert Parser.Frames(st.accepted + [payload]) == Parser.Frames(st.accepted) + [frame];
    var w, c, q := st.wire, st.current, Concat(st.queue);
    assert w + (c + (q + frame)) == (w + (c + q)) + frame;
  }

  lemma Regroup<T>(w: seq<T>, c: seq<T>, q: seq<T>, n: nat)
    requires n <= |c|
    ensures (w + c[..n]) + (c[n..] + q) == w + (c + q)
  {
    assert c[..n] + (c[n..] + q) == c + q;
    assert (w + c[..n]) + (c[n..] + q) == w + (c[..n] + (c[n..] + q));
  }

  lemma FetchedConserves(st: State)
    requires Conserved(st)
    ensures Conserved(Fetched(st))
  {
    if st.current == [] && st.queue != [] {
      assert st.current + Concat(st.queue) == Concat(st.queue);
    }
  }

  lemma StepConserves(st: State, e: Event)
    requires Conserved(st)
    ensures Conserved(Step(st, e))
  {
    hide Sent, Fetched, Concat;
    match e {
      case Configure(on) =>
      case Send(payload) => SentConserves(st, payload);
      case Fetch => FetchedConserves(st);
      case Fill(room) =>
        Regroup(st.wire, st.current, Concat(st.queue),
                if room < |st.current| then room else |st.current|);
    }
  }

  lemma {:induction false} AlwaysConserved(events: seq<Event>)
    ensures Conserved(Run(events)) && Bounded(Run(events))
    decreases |events|
  {
    hide Step;
    if events == [] {
      assert Parser.Frames([]) == [];
    } else {
      AlwaysConserved(events[..|events| - 1]);
      StepConserves(Run(events[..|events| - 1]), events[|events| - 1]);
      StepBounded(Run(events[..|events| - 1]), events[|events| - 1]);
    }
  }

  // ---- what the host makes of it --------------------------------------------------------

  lemma PrefixOfSum<T>(wire: seq<T>, a: seq<T>, b: seq<T>)
    requires wire <= a + b
    ensures |wire| < |a| ==> wire <= a && wire == a[..|wire|]
    ensures |wire| >= |a| ==> wire == a + wire[|a|..] && wire[|a|..] <= b
  {
    if |wire| >= |a| {
      assert (a + b)[..|wire|][|a|..] == b[..|wire| - |a|];
      assert wire[..|a|] == a;
    }
  }

  /** How many whole frames a prefix of the frames' concatenation holds. */
  function Whole(payloads: seq<Payload>, wire: seq<byte>): (k: nat)
    ensures k <= |payloads|
    decreases |payloads|
  {
    if payloads == [] || |wire| < |Frame.FrameOf(payloads[0])| then 0
    else 1 + Whole(payloads[1..], wire[|Frame.FrameOf(payloads[0])|..])
  }

  lemma {:induction false} WholeIsWhole(payloads: seq<Payload>, wire: seq<byte>)
    requires wire <= Concat(Parser.Frames(payloads))
    ensures var k := Whole(payloads, wire);
      Concat(Parser.Frames(payloads[..k])) <= wire &&
      (k < |payloads| ==> wire < Concat(Parser.Frames(payloads[..k + 1])))
    decreases |payloads|
  {
    hide Frame.FrameOf, Concat, Parser.Frames;
    NoFrames();
    assert payloads[..0] == [];
    if payloads != [] {
      var frame, later := Frame.FrameOf(payloads[0]), payloads[1..];
      ConcatHead(payloads, |payloads|);
      assert payloads[..|payloads|] == payloads && later[..|payloads| - 1] == later;
      PrefixOfSum(wire, frame, Concat(Parser.Frames(later)));
      ConcatHead(payloads, 1);
      assert later[..0] == [];
      if |wire| >= |frame| {
        var k := Whole(later, wire[|frame|..]);
        WholeIsWhole(later, wire[|frame|..]);
        ConcatHead(payloads, k + 1);
        if k < |later| {
          ConcatHead(payloads, k + 2);
        }
      }
    }
  }

  lemma NoFrames()
    ensures Concat(Parser.Frames([])) == []
  {
    assert Parser.Frames([]) == [];
  }

  lemma ConcatHead(payloads: seq<Payload>, k: nat)
    requires 1 <= k <= |payloads|
    ensures Concat(Parser.Frames(payloads[..k])) ==
            Frame.FrameOf(payloads[0]) + Concat(Parser.Frames(payloads[1..][..k - 1]))
  {
    hide Frame.FrameOf;
    Parser.FramesHead(payloads[..k]);
    assert payloads[..k][1..] == payloads[1..][..k - 1];
  }

  /** A parser between blocks that is fed a prefix of some frames handles the payloads of
      the whole ones and keeps the partial one in its buffer. */
  lemma {:induction false} FedPrefix(st: Parser.State, payloads: seq<Payload>, wire: seq<byte>)
    requires st.Clean() && Parser.AllSendable(payloads)
    requires wire <= Concat(Parser.Frames(payloads))
    ensures var done := Parser.HandledAll(st, payloads[..Whole(payloads, wire)]);
      Parser.Fed(st, wire) == done.(buf := Parser.Fed(st, wire).buf)
    decreases |payloads|
  {
    hide Frame.FrameOf, Parser.Handled, Parser.Fed;
    var k := Whole(payloads, wire);
    if payloads == [] {
      Parser.FedNothing(st);
      assert payloads[..k] == [];
    } else {
      var frame, later := Frame.FrameOf(payloads[0]), payloads[1..];
      Parser.FramesHead(payloads);
      PrefixOfSum(wire, frame, Concat(Parser.Frames(later)));
      if |wire| < |frame| {
        FedPartial(st, payloads[0], wire);
        assert payloads[..k] == [];
      } else {
        var rest := wire[|frame|..];
        Parser.FedFrame(st, payloads[0]);
        Parser.FedAppend(st, frame, rest);
        FedPrefix(Parser.Handled(st, payloads[0]), later, rest);
        assert payloads[..k][1..] == later[..k - 1] && payloads[..k][0] == payloads[0];
      }
    }
  }

  lemma FedPartial(st: Parser.State, payload: Payload, wire: seq<byte>)
    requires st.Clean() && Frame.Sendable(payload)
    requires |wire| < |Frame.FrameOf(payload)| && wire == Frame.FrameOf(payload)[..|wire|]
    ensures Parser.Fed(st, wire) == st.(buf := wire)
  {
    hide Frame.BlockOf;
    Frame.FrameShape(payload);
    var block := Frame.BlockOf(payload);
    assert wire == block[..|wire|];
    assert ZeroFree(wire) by {
      forall i | 0 <= i < |wire| ensures wire[i] != 0 { assert wire[i] == block[i]; }
    }
    Parser.FedBlock(st, wire);
  }

  /** For every interleaving of producers, fetches and fills of any size, and every
      chunking on the host's side: the wire is the first `k` accepted frames followed by
      less than one frame more, and the host decodes exactly those `k` payloads, in order,
      with no decode error and no resync, each counted once; if they are all of known types
      and sizes, none is counted as anything but a good frame, and all are handed on. */
  lemma EndToEnd(events: seq<Event>, chunks: seq<seq<byte>>)
    requires Concat(chunks) == Run(events).wire
    ensures var st := Run(events);
      var host := Parser.FedChunks(Parser.FRESH, chunks);
      var k := Whole(st.accepted, st.wire);
      && Concat(Parser.Frames(st.accepted[..k])) <= st.wire <= Concat(Parser.Frames(st.accepted))
      && (k < |st.accepted| ==> st.wire < Concat(Parser.Frames(st.accepted[..k + 1])))
      && host.decoded == st.accepted[..k]
      && host.stats.decodeErrors == 0 && host.stats.oversizeResyncs == 0 && !host.discarding
      && host.stats.Total() == k
      && Parser.AllSendable(st.accepted)
      && (Parser.AllTyped(st.accepted) ==>
            host.stats == Parser.Stats(k, 0, 0, 0, 0) && host.delivered == st.accepted[..k])
  {
    hide Run, Parser.Fed, Parser.FedChunks, Parser.HandledAll, Parser.Frames, Whole, Parser.AllTyped, Bounded,
      Parser.AllSendable;
    var st := Run(events);
    AlwaysConserved(events);
    Parser.ChunkingIrrelevant(Parser.FRESH, chunks);
    var k := Whole(st.accepted, st.wire);
    WholeIsWhole(st.accepted, st.wire);
    FedPrefix(Parser.FRESH, st.accepted, st.wire);
    var done := st.accepted[..k];
    SendablePrefix(st.accepted, k);
    FreshHandles(done);
    Parser.FedFrames(Parser.FRESH, done);
    if Parser.AllTyped(st.accepted) {
      TypedPrefix(st.accepted, k);
      FreshTyped(done);
    }
  }

  lemma SendablePrefix(payloads: seq<Payload>, k: nat)
    requires k <= |payloads| && Parser.AllSendable(payloads)
    ensures Parser.AllSendable(payloads[..k])
  {
    hide Frame.Sendable;
  }

  lemma NothingBefore<T>(s: seq<T>)
    ensures [] + s == s
  {
  }

  /** What a fresh parser makes of payloads. */
  lemma FreshHandles(payloads: seq<Payload>)
    requires Parser.AllSendable(payloads)
    ensures var host := Parser.HandledAll(Parser.FRESH, payloads);
      && host.decoded == payloads
      && host.stats.decodeErrors == 0 && host.stats.oversizeResyncs == 0 && host.stats.Total() == |payloads|
  {
    hide Parser.HandledAll, Parser.AllSendable;
    Parser.HandledLog(Parser.FRESH, payloads);
    NothingBefore(payloads);
  }

  lemma FreshTyped(payloads: seq<Payload>)
    requires Parser.AllSendable(payloads) && Parser.AllTyped(payloads)
    ensures var host := Parser.HandledAll(Parser.FRESH, payloads);
      host.stats == Parser.Stats(|payloads|, 0, 0, 0, 0) && host.delivered == payloads
  {
    hide Parser.HandledAll, Parser.AllSendable, Parser.AllTyped;
    Parser.HandledTyped(Parser.FRESH, payloads);
    NothingBefore(payloads);
  }

  lemma TypedPrefix(payloads: seq<Payload>, k: nat)
    requires k <= |payloads| && Parser.AllSendable(payloads) && Parser.AllTyped(payloads)
    ensures Parser.AllSendable(payloads[..k]) && Parser.AllTyped(payloads[..k])
  {
    hide Frame.Sendable, Parser.Judge;
  }

  // ---- the pipe on its ring ---------------------------------------------------------------

  function Entry(frame: seq<byte>): (bytes: seq<byte>)
    requires |frame| < Frame.MAX_FRAME
  {
    [|frame|] + frame
  }

  ghost predicate Frames(queue: seq<seq<byte>>) {
    forall i :: 0 <= i < |queue| ==> 0 < |queue[i]| < Frame.MAX_FRAME
  }

  /** The ring bytes a queue of frames takes, oldest first. */
  ghost function Entries(queue: seq<seq<byte>>): (bytes: seq<byte>)
    requires Frames(queue)
  {
    Concat(seq(|queue|, i requires 0 <= i < |queue| => Entry(queue[i])))
  }

  lemma {:induction false} EntriesAppend(queue: seq<seq<byte>>, frame: seq<byte>)
    requires Frames(queue) && 0 < |frame| < Frame.MAX_FRAME
    ensures Frames(queue + [frame]) && Entries(queue + [frame]) == Entries(queue) + Entry(frame)
  {
    var parts := seq(|queue|, i requires 0 <= i < |queue| => Entry(queue[i]));
    var more := queue + [frame];
    assert seq(|more|, i requires 0 <= i < |more| => Entry(more[i])) == parts + [Entry(frame)];
    ConcatAppend(parts, [Entry(frame)]);
    ConcatOne(Entry(frame));
  }

  lemma EntriesHead(queue: seq<seq<byte>>)
    requires Frames(queue) && queue != []
    ensures Frames(queue[1..]) && Entries(queue) == Entry(queue[0]) + Entries(queue[1..])
  {
    var parts := seq(|queue|, i requires 0 <= i < |queue| => Entry(queue[i]));
    var rest := queue[1..];
    assert seq(|rest|, i requires 0 <= i < |rest| => Entry(rest[i])) == parts[1..];
  }

  lemma {:induction false} EntriesLength(queue: seq<seq<byte>>)
    requires Frames(queue)
    ensures |Entries(queue)| == Used(queue)
    decreases |queue|
  {
    if queue != [] {
      var start, last := queue[..|queue| - 1], queue[|queue| - 1];
      EntriesLength(start);
      EntriesAppend(start, last);
      assert queue == start + [last];
    }
  }

  // ---- what is accepted and what is dropped -------------------------------------------------

  /** Whether the host is configured after the events: what the last Configure said. */
  function HostThere(events: seq<Event>): (on: bool)
    decreases |events|
  {
    if events == [] then false
    else
      var e := events[|events| - 1];
      if e.Configure? then e.on else HostThere(events[..|events| - 1])
  }

  /** The payloads a frame can carry that producers sent while the host was configured. */
  function Offered(events: seq<Event>): (payloads: seq<Payload>)
    decreases |events|
  {
    if events == [] then []
    else
      var before, e := events[..|events| - 1], events[|events| - 1];
      Offered(before) +
      if e.Send? && HostThere(before) && Frame.Sendable(e.payload) then [e.payload] else []
  }

  /** The ring's free bytes beside a queue of frames. */
  ghost function Free(queue: seq<seq<byte>>): (n: int)
    requires Frames(queue)
  {
    RING - |Entries(queue)|
  }

  lemma {:induction false} ConfiguredIs(events: seq<Event>)
    ensures Run(events).configured == HostThere(events)
    decreases |events|
  {
    hide Frame.FrameOf, Frame.Sendable, Used;
    if events != [] {
      ConfiguredIs(events[..|events| - 1]);
    }
  }

  /** What a send may do: to nothing, if it is not offered; else the frame goes in whole behind all
      before it, unless the ring is short of it and its length byte, and only then it is dropped. */
  ghost predicate Decided(st: State, next: State, payload: Payload, offered: bool) {
    && Frames(st.queue)
    && var frame := Frame.FrameOf(payload);
       var short := Free(st.queue) < |frame| + 1;
       && (!offered ==> next == st)
       && (offered && short ==> next == st.(dropped := st.dropped + 1))
       && (offered && !short ==> next == st.(queue := st.queue + [frame], accepted := st.accepted + [payload]))
  }

  /** So it is with a send after any run. */
  lemma SendDecided(events: seq<Event>, payload: Payload)
    ensures Decided(Run(events), Run(events + [Send(payload)]), payload,
                    HostThere(events) && Frame.Sendable(payload))
  {
    hide Entries, Frame.FrameOf, Frame.Sendable, Used;
    var st, all := Run(events), events + [Send(payload)];
    assert all[..|all| - 1] == events && all[|all| - 1] == Send(payload);
    AlwaysConserved(events);
    ConfiguredIs(events);
    EntriesLength(st.queue);
  }

  /** Every payload offered is accepted or counted as dropped, and only those are. */
  lemma {:induction false} OfferedAccounted(events: seq<Event>)
    ensures |Run(events).accepted| + Run(events).dropped == |Offered(events)|
    ensures forall x :: x in Run(events).accepted ==> x in Offered(events)
    decreases |events|
  {
    hide Step, Entries, Frame.FrameOf, Frame.Sendable, Used;
    if events != [] {
      var before, e := events[..|events| - 1], events[|events| - 1];
      OfferedAccounted(before);
      if e.Send? {
        assert before + [e] == events;
        SendDecided(before, e.payload);
      } else {
        OnlySendsCount(Run(before), e);
      }
    }
  }

  lemma OnlySendsCount(st: State, e: Event)
    requires !e.Send?
    ensures Step(st, e).accepted == st.accepted && Step(st, e).dropped == st.dropped
  {
  }

  // ---- the pipe drains ----------------------------------------------------------------------

  /** The bytes accepted and not yet on the wire. */
  function Waiting(st: State): (n: nat) {
    |st.current + Concat(st.queue)|
  }

  /** One transmit-ready turn. */
  function Turned(st: State, room: nat): (next: State) {
    Step(Step(st, Fetch), Fill(room))
  }

  function Turns(st: State, rooms: seq<nat>): (end: State)
    decreases |rooms|
  {
    if rooms == [] then st else Turns(Turned(st, rooms[0]), rooms[1..])
  }

  /** A turn moves as much of the oldest unfinished frame as the USB stack has room for: a byte at
      least unless nothing waits, and all of it if there is room. */
  lemma TurnMoves(st: State, room: nat)
    requires Conserved(st) && Bounded(st)
    ensures Conserved(Turned(st, room)) && Bounded(Turned(st, room))
    ensures Turned(st, room).accepted == st.accepted
    ensures Waiting(st) == 0 ==> st.current == [] && st.queue == [] && Turned(st, room) == st
    ensures Waiting(st) > 0 ==>
              && (st.current != [] || st.queue != [])
              && var front := if st.current != [] then st.current else st.queue[0];
                 var n := if room < |front| then room else |front|;
                 && Turned(st, room).wire == st.wire + front[..n]
                 && Waiting(Turned(st, room)) == Waiting(st) - n && |front| > 0
  {
    hide Used, Concat, Sent, Frame.FrameOf, Frame.Sendable;
    var t := Step(st, Fetch);
    StepBounded(st, Fetch);
    StepConserves(st, Fetch);
    StepBounded(t, Fill(room));
    StepConserves(t, Fill(room));
    if st.queue != [] {
      ConcatFirst(st.queue);
    } else {
      ConcatNone();
    }
    if st.current == [] {
      NothingBefore(Concat(st.queue));
    }
    if Waiting(st) == 0 {
      assert st.current == [] && st.queue == [];
      NothingBefore(st.wire);
    }
  }

  /** Whatever is on its way after a run is on the wire after as many turns with room for a byte as
      it has bytes; the ring is then free again. */
  lemma {:induction false} Drains(st: State, rooms: seq<nat>)
    requires Conserved(st) && Bounded(st)
    requires |rooms| >= Waiting(st) && forall k :: 0 <= k < |rooms| ==> rooms[k] > 0
    ensures Turns(st, rooms).wire == Concat(Parser.Frames(st.accepted))
    ensures Turns(st, rooms).queue == [] && Turns(st, rooms).current == []
    decreases |rooms|
  {
    hide Turned, Conserved, Bounded, Waiting;
    if rooms == [] {
      AllMoved(st);
    } else {
      TurnMoves(st, rooms[0]);
      Drains(Turned(st, rooms[0]), rooms[1..]);
    }
  }

  lemma AllMoved(st: State)
    requires Conserved(st) && Bounded(st) && Waiting(st) == 0
    ensures st.wire == Concat(Parser.Frames(st.accepted)) && st.queue == [] && st.current == []
  {
    TurnMoves(st, 0);
    assert st.wire + [] == st.wire;
  }

  lemma ConcatFirst(queue: seq<seq<byte>>)
    requires queue != []
    ensures Concat(queue) == queue[0] + Concat(queue[1..])
  {
  }

  lemma ConcatNone()
    ensures Concat<byte>([]) == []
  {
  }

  class Pipe {
    const ring: ByteRing
    const txCur: array<byte>
    var txCurLen: nat
    var txCurOff: nat
    var txDropped: nat
    var configured: bool
    var wire: seq<byte>                 // what the USB stack took
    ghost var queue: seq<seq<byte>>
    ghost var accepted: seq<Payload>

    ghost predicate Valid()
      reads this, ring, ring.data
    {
      && ring.Valid() && ring.data.Length == RING && ring.data != txCur
      && txCurOff <= txCurLen < txCur.Length == Frame.MAX_FRAME
      && Frames(queue) && ring.contents == Entries(queue)
    }

    ghost function View(): (st: State)
      requires Valid()
      reads this, ring, ring.data, txCur
    {
      State(configured, queue, txCur[txCurOff..txCurLen], wire, accepted, txDropped)
    }

    constructor ()
      ensures Valid() && View() == START && fresh(ring) && fresh(ring.data) && fresh(txCur)
    {
      ring := new ByteRing(RING);
      txCur := new byte[Frame.MAX_FRAME];
      txCurLen, txCurOff, txDropped, configured := 0, 0, 0, false;
      wire, queue, accepted := [], [], [];
    }

    method SetConfigured(on: bool)
      requires Valid()
      modifies this
      ensures Valid() && View() == Step(old(View()), Configure(on))
    {
      configured := on;
    }

    /** Puts a length byte and a whole frame into the ring. */
    method PutFrame(frame: seq<byte>)
      requires Valid() && 0 < |frame| < Frame.MAX_FRAME && Used(queue) + |frame| + 1 <= RING
      modifies this`queue, ring, ring.data
      ensures Valid() && View() == old(View()).(queue := old(queue) + [frame])
    {
      hide Entries, Used;
      EntriesLength(queue);
      EntriesAppend(queue, frame);
      ring.PutByte(|frame|);
      ring.Put(frame);
      assert ring.contents == old(ring.contents) + Entry(frame);
      queue := queue + [frame];
    }

    /** Any producer, under the lock: the whole frame goes in, or none of it. */
    method SendPayload(payload: Payload)
      requires Valid()
      modifies this, ring, ring.data
      ensures Valid() && View() == Step(old(View()), Send(payload))
    {
      hide Frame.FrameOf, Entries, Used;
      var frame := new byte[Frame.MAX_FRAME];
      Frame.FrameShape(payload);
      var flen := Frame.Encode(payload, frame, frame.Length);
      if flen == 0 {
        return;
      }
      if !configured {
        return;
      }
      EntriesLength(queue);
      if ring.Space() >= flen + 1 {
        PutFrame(frame[..flen]);
        accepted := accepted + [payload];
      } else {
        txDropped := txDropped + 1;
      }
    }

    /** The interrupt handler's fetch, under the lock; false when the ring is empty. */
    method FetchFrame() returns (ready: bool)
      requires Valid()
      modifies this, ring, txCur
      ensures Valid() && View() == Step(old(View()), Fetch)
      ensures ready == (View().current != [])
    {
      hide Entries;
      if txCurOff == txCurLen {
        if ring.len == 0 {
          EmptyQueue(queue);
          return false;
        }
        QueueNotEmpty(queue);
        EntriesHead(queue);
        var len := ring.GetByte();
        ghost var frame := queue[0];
        assert [|frame|] + (frame + Entries(queue[1..])) == Entry(frame) + Entries(queue[1..]);
        SameSplit([len], ring.contents, [|frame|], frame + Entries(queue[1..]));
        assert len == |frame| by { assert [len][0] == [|frame|][0]; }
        ring.Get(len, txCur);
        SameSplit(txCur[..len], ring.contents, frame, Entries(queue[1..]));
        txCurLen, txCurOff, queue := len, 0, queue[1..];
      }
      ready := true;
    }

    /** The interrupt handler's fill; `room` is what the USB stack can take now. */
    method FillFifo(room: nat)
      requires Valid()
      modifies this
      ensures Valid() && View() == Step(old(View()), Fill(room))
    {
      var n := if room < txCurLen - txCurOff then room else txCurLen - txCurOff;
      ghost var current := txCur[txCurOff..txCurLen];
      assert current[..n] == txCur[txCurOff..txCurOff + n];
      assert current[n..] == txCur[txCurOff + n..txCurLen];
      wire := wire + txCur[txCurOff..txCurOff + n];
      txCurOff := txCurOff + n;
    }

    /** One transmit-ready callback: at most one fetch, then one fill. */
    method TxReady(room: nat)
      requires Valid()
      modifies this, ring, txCur
      ensures Valid() && View() == Step(Step(old(View()), Fetch), Fill(room))
    {
      var ready := FetchFrame();
      if ready {
        FillFifo(room);
      } else {
        assert View().wire + [] == View().wire;
      }
    }
  }

  lemma EmptyQueue(queue: seq<seq<byte>>)
    requires Frames(queue) && Entries(queue) == []
    ensures queue == []
  {
    if queue != [] {
      EntriesHead(queue);
    }
  }

  lemma QueueNotEmpty(queue: seq<seq<byte>>)
    requires Frames(queue) && Entries(queue) != []
    ensures queue != []
  {
  }

  lemma SameSplit<T>(a: seq<T>, b: seq<T>, c: seq<T>, d: seq<T>)
    requires a + b == c + d && |a| == |c|
    ensures a == c && b == d
  {
    assert (a + b)[..|a|] == a && (a + b)[|a|..] == b;
    assert (c + d)[..|c|] == c && (c + d)[|c|..] == d;
  }
}
