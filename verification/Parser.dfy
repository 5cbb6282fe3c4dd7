/** The host's push parser, host/libheadtracker/src/parser.cpp.

    `Fed` says byte by byte what the parser does; the class does it on its buffer. The
    batch specification cuts the whole stream at its zeros instead, and the two agree. */
module Parser {
  import opened Wire
  import Frame

  type Payload = Frame.Payload

  const BUFFER := Frame.MAX_FRAME

  const ORIENT := 0x01
  const STATUS := 0x02
  const RAW := 0x03
  const HELLO_RESP := 0x04
  const TRACKER_STAT := 0x05
  const LOG := 0x7F

  datatype Verdict = Delivered | SizeMismatch | UnknownType

  datatype Stats = Stats(framesOk: nat, decodeErrors: nat, sizeMismatch: nat,
                         unknownTypes: nat, oversizeResyncs: nat)
  {
    function Total(): (n: nat) {
      framesOk + decodeErrors + sizeMismatch + unknownTypes + oversizeResyncs
    }
  }

  const NO_STATS := Stats(0, 0, 0, 0, 0)

  /** The buffer, the discard flag, the counters, every payload that decoded, and those of
      them that were handed to a typed callback. */
  datatype State = State(buf: seq<byte>, discarding: bool, stats: Stats,
                         decoded: seq<Payload>, delivered: seq<Payload>)
  {
    predicate Valid() {
      |buf| <= BUFFER && ZeroFree(buf) && (discarding ==> buf == [])
    }

    /** Between two blocks: nothing buffered, nothing being skipped. */
    predicate Clean() {
      buf == [] && !discarding
    }
  }

  const FRESH := State([], false, NO_STATS, [], [])

  /** The size each known type must have; LOG may have any. */
  function Judge(payload: Payload): (v: Verdict)
    requires payload != []
  {
    var t, n := payload[0], |payload|;
    if t == LOG then Delivered
    else if t !in {ORIENT, STATUS, TRACKER_STAT, RAW, HELLO_RESP} then UnknownType
    else if (t == ORIENT && n == 26) || (t == STATUS && n == 9) || (t == TRACKER_STAT && n == 20)
            || (t == RAW && n == 22) || (t == HELLO_RESP && n == 8) then Delivered
    else SizeMismatch
  }

  /** The parser after a payload came out of a block. */
  function Handled(st: State, payload: Payload): (next: State)
    requires payload != []
  {
    var logged := st.(decoded := st.decoded + [payload]);
    match Judge(payload)
    case Delivered => logged.(delivered := st.delivered + [payload],
                              stats := st.stats.(framesOk := st.stats.framesOk + 1))
    case SizeMismatch => logged.(stats := st.stats.(sizeMismatch := st.stats.sizeMismatch + 1))
    case UnknownType => logged.(stats := st.stats.(unknownTypes := st.stats.unknownTypes + 1))
  }

  /** The parser after it tried to decode a block. */
  function Attempted(st: State, block: seq<byte>): (next: State) {
    match Frame.PayloadOf(block)
    case None => st.(stats := st.stats.(decodeErrors := st.stats.decodeErrors + 1))
    case Some(payload) => Handled(st, payload)
  }

  function FedByte(st: State, b: byte): (next: State) {
    if b == 0 then
      (if !st.discarding && st.buf != [] then Attempted(st, st.buf) else st)
        .(buf := [], discarding := false)
    else if st.discarding then st
    else if |st.buf| >= BUFFER then
      st.(buf := [], discarding := true,
          stats := st.stats.(oversizeResyncs := st.stats.oversizeResyncs + 1))
    else st.(buf := st.buf + [b])
  }

  function Fed(st: State, data: seq<byte>): (next: State)
    decreases |data|
  {
    if data == [] then st
    else FedByte(Fed(st, data[..|data| - 1]), data[|data| - 1])
  }

  /** One call of feed per chunk. */
  function FedChunks(st: State, chunks: seq<seq<byte>>): (next: State)
    decreases |chunks|
  {
    if chunks == [] then st else FedChunks(Fed(st, chunks[0]), chunks[1..])
  }

  lemma {:induction false} FedAppend(st: State, a: seq<byte>, b: seq<byte>)
    ensures Fed(st, a + b) == Fed(Fed(st, a), b)
    decreases |b|
  {
    hide FedByte;
    if b == [] {
      assert a + b == a;
    } else {
      var c, last := b[..|b| - 1], b[|b| - 1];
      assert (a + b)[..|a + b| - 1] == a + c && (a + b)[|a + b| - 1] == last;
      FedAppend(st, a, c);
    }
  }

  /** How the stream is cut into chunks does not matter. */
  lemma {:induction false} ChunkingIrrelevant(st: State, chunks: seq<seq<byte>>)
    ensures FedChunks(st, chunks) == Fed(st, Concat(chunks))
    decreases |chunks|
  {
    hide Fed;
    if chunks == [] {
      FedNothing(st);
    } else {
      ChunkingIrrelevant(Fed(st, chunks[0]), chunks[1..]);
      FedAppend(st, chunks[0], Concat(chunks[1..]));
    }
  }

  lemma FedNothing(st: State)
    ensures Fed(st, []) == st
  {
  }

  // ---- the batch specification -----------------------------------------------------

  /** A stream cut at its zeros: the completed blocks and the unfinished rest. */
  datatype Cut = Cut(blocks: seq<seq<byte>>, rest: seq<byte>)

  function CutOf(stream: seq<byte>): (cut: Cut)
    decreases |stream|
  {
    if stream == [] then Cut([], [])
    else
      var before, b := CutOf(stream[..|stream| - 1]), stream[|stream| - 1];
      if b == 0 then Cut(before.blocks + [before.rest], [])
      else Cut(before.blocks, before.rest + [b])
  }

  /** Closing every block with its zero and appending the rest gives the stream back. */
  function Closed(blocks: seq<seq<byte>>): (parts: seq<seq<byte>>)
    ensures |parts| == |blocks|
  {
    seq(|blocks|, i requires 0 <= i < |blocks| => blocks[i] + [0])
  }

  lemma {:induction false} CutJoins(stream: seq<byte>)
    ensures var cut := CutOf(stream);
      Concat(Closed(cut.blocks)) + cut.rest == stream &&
      ZeroFree(cut.rest) && forall i :: 0 <= i < |cut.blocks| ==> ZeroFree(cut.blocks[i])
    decreases |stream|
  {
    if stream != [] {
      var start, b := stream[..|stream| - 1], stream[|stream| - 1];
      var before := CutOf(start);
      CutJoins(start);
      if b == 0 {
        assert Closed(before.blocks + [before.rest]) == Closed(before.blocks) + [before.rest + [0]];
        ConcatAppend(Closed(before.blocks), [before.rest + [0]]);
        ConcatOne(before.rest + [0]);
        assert start + [0] == Concat(Closed(before.blocks)) + (before.rest + [0]);
      } else {
        assert Concat(Closed(before.blocks)) + (before.rest + [b]) == start + [b];
      }
      assert stream == start + [b];
    }
  }

  predicate Decodable(block: seq<byte>) {
    1 <= |block| <= BUFFER
  }

  /** A fresh parser that was given whole blocks: each non-empty block of at most 64 bytes
      is tried, in order; each longer one is one resync; empty ones do nothing. */
  function Batch(blocks: seq<seq<byte>>): (st: State) {
    if blocks == [] then FRESH
    else
      var before, block := Batch(blocks[..|blocks| - 1]), blocks[|blocks| - 1];
      if block == [] then before
      else if Decodable(block) then Attempted(before, block)
      else before.(stats := before.stats.(oversizeResyncs := before.stats.oversizeResyncs + 1))
  }

  /** The batch result with the unfinished rest buffered, or being skipped. */
  function WithRest(st: State, rest: seq<byte>): (next: State) {
    if |rest| <= BUFFER then st.(buf := rest, discarding := false)
    else st.(buf := [], discarding := true,
             stats := st.stats.(oversizeResyncs := st.stats.oversizeResyncs + 1))
  }

  /** Feeding any stream to a fresh parser, in any chunks, does what the batch
      specification says about the stream as a whole. */
  lemma {:induction false} FedIsBatch(stream: seq<byte>)
    ensures Fed(FRESH, stream) == WithRest(Batch(CutOf(stream).blocks), CutOf(stream).rest)
    decreases |stream|
  {
    hide Attempted;
    if stream != [] {
      var start, b := stream[..|stream| - 1], stream[|stream| - 1];
      var before := CutOf(start);
      FedIsBatch(start);
      if b == 0 {
        BatchStep(before.blocks, before.rest);
        AttemptedKeeps(Batch(before.blocks), before.rest);
      }
    }
  }

  lemma BatchStep(blocks: seq<seq<byte>>, block: seq<byte>)
    ensures Batch(blocks + [block]) ==
      var before := Batch(blocks);
      if block == [] then before
      else if Decodable(block) then Attempted(before, block)
      else before.(stats := before.stats.(oversizeResyncs := before.stats.oversizeResyncs + 1))
    ensures Batch(blocks).Clean()
  {
    hide Attempted;
    assert (blocks + [block])[..|blocks|] == blocks;
    BatchClean(blocks);
  }

  lemma {:induction false} BatchClean(blocks: seq<seq<byte>>)
    ensures Batch(blocks).Clean()
  {
    if blocks != [] {
      BatchClean(blocks[..|blocks| - 1]);
    }
  }

  /** Trying a block leaves the buffer alone, and does not look at it. */
  lemma AttemptedKeeps(st: State, block: seq<byte>)
    ensures Attempted(st, block).buf == st.buf && Attempted(st, block).discarding == st.discarding
    ensures forall buf, d :: Attempted(st.(buf := buf, discarding := d), block) ==
                             Attempted(st, block).(buf := buf, discarding := d)
  {
    hide Frame.PayloadOf, Judge;
  }

  function NonEmpty(blocks: seq<seq<byte>>): (n: nat) {
    if blocks == [] then 0
    else NonEmpty(blocks[..|blocks| - 1]) + if blocks[|blocks| - 1] == [] then 0 else 1
  }

  lemma {:induction false} BatchTotal(blocks: seq<seq<byte>>)
    ensures Batch(blocks).stats.Total() == NonEmpty(blocks)
  {
    hide Frame.PayloadOf, Judge;
    if blocks != [] {
      BatchTotal(blocks[..|blocks| - 1]);
    }
  }

  lemma WithRestTotal(st: State, rest: seq<byte>)
    ensures WithRest(st, rest).stats.Total() ==
            st.stats.Total() + if WithRest(st, rest).discarding then 1 else 0
  {
  }

  /** Every completed non-empty block is counted once, in exactly one counter; a block
      still being skipped is already counted. */
  lemma CountersComplete(stream: seq<byte>)
    ensures Fed(FRESH, stream).stats.Total() ==
            NonEmpty(CutOf(stream).blocks) + if Fed(FRESH, stream).discarding then 1 else 0
  {
    hide Batch, CutOf, Fed, NonEmpty;
    FedIsBatch(stream);
    BatchTotal(CutOf(stream).blocks);
    WithRestTotal(Batch(CutOf(stream).blocks), CutOf(stream).rest);
  }

  // ---- frames ---------------------------------------------------------------------

  lemma {:induction false} FedBlock(st: State, block: seq<byte>)
    requires st.Clean() && ZeroFree(block) && |block| <= BUFFER
    ensures Fed(st, block) == st.(buf := block)
    decreases |block|
  {
    if block != [] {
      var start := block[..|block| - 1];
      assert ZeroFree(start) by {
        forall i | 0 <= i < |start| ensures start[i] != 0 { assert start[i] == block[i]; }
      }
      FedBlock(st, start);
      assert block == start + [block[|block| - 1]];
    }
  }

  /** Between blocks, a frame is its payload. */
  lemma FedFrame(st: State, payload: Payload)
    requires st.Clean() && Frame.Sendable(payload)
    ensures Fed(st, Frame.FrameOf(payload)) == Handled(st, payload)
    ensures Handled(st, payload).Clean()
  {
    hide Frame.BlockOf, Frame.PayloadOf, Judge;
    var block := Frame.BlockOf(payload);
    Frame.FrameShape(payload);
    FedBlock(st, block);
    FedAppend(st, block, [0]);
    Frame.RoundTrip(payload);
    assert [0][..0] == [];
    FedNothing(st.(buf := block));
    AttemptedKeeps(st, block);
  }

  function Frames(payloads: seq<Payload>): (frames: seq<seq<byte>>)
    ensures |frames| == |payloads|
  {
    seq(|payloads|, i requires 0 <= i < |payloads| => Frame.FrameOf(payloads[i]))
  }

  function HandledAll(st: State, payloads: seq<Payload>): (next: State)
    requires AllSendable(payloads)
    decreases |payloads|
  {
    if payloads == [] then st else HandledAll(Handled(st, payloads[0]), payloads[1..])
  }

  predicate AllSendable(payloads: seq<Payload>) {
    forall i :: 0 <= i < |payloads| ==> Frame.Sendable(payloads[i])
  }

  lemma FramesHead(payloads: seq<Payload>)
    requires payloads != []
    ensures Frames(payloads)[0] == Frame.FrameOf(payloads[0])
    ensures Frames(payloads)[1..] == Frames(payloads[1..])
  {
  }

  lemma {:induction false} FedFrames(st: State, payloads: seq<Payload>)
    requires st.Clean() && AllSendable(payloads)
    ensures Fed(st, Concat(Frames(payloads))) == HandledAll(st, payloads)
    ensures HandledAll(st, payloads).Clean()
    decreases |payloads|
  {
    hide Fed, Handled, Frame.FrameOf, Frames;
    if payloads == [] {
      FedNothing(st);
    } else {
      FramesHead(payloads);
      FedFrame(st, payloads[0]);
      FedAppend(st, Frame.FrameOf(payloads[0]), Concat(Frames(payloads[1..])));
      FedFrames(Handled(st, payloads[0]), payloads[1..]);
    }
  }

  /** Every payload is of a known type and of that type's size. */
  predicate AllTyped(payloads: seq<Payload>)
    requires AllSendable(payloads)
  {
    forall i :: 0 <= i < |payloads| ==> Frame.Sendable(payloads[i]) && Judge(payloads[i]) == Delivered
  }

  /** Handling payloads logs exactly them, with no decode error and no resync. */
  lemma {:induction false} HandledLog(st: State, payloads: seq<Payload>)
    requires AllSendable(payloads)
    ensures HandledAll(st, payloads).decoded == st.decoded + payloads
    ensures HandledAll(st, payloads).stats.decodeErrors == st.stats.decodeErrors
    ensures HandledAll(st, payloads).stats.oversizeResyncs == st.stats.oversizeResyncs
    ensures HandledAll(st, payloads).stats.Total() == st.stats.Total() + |payloads|
    decreases |payloads|
  {
    hide Judge;
    if payloads != [] {
      HandledLog(Handled(st, payloads[0]), payloads[1..]);
      assert st.decoded + payloads == st.decoded + [payloads[0]] + payloads[1..];
    }
  }

  /** Typed payloads are all counted as good frames and handed on. */
  lemma {:induction false} HandledTyped(st: State, payloads: seq<Payload>)
    requires AllSendable(payloads) && AllTyped(payloads)
    ensures HandledAll(st, payloads).stats == st.stats.(framesOk := st.stats.framesOk + |payloads|)
    ensures HandledAll(st, payloads).delivered == st.delivered + payloads
    decreases |payloads|
  {
    hide Judge;
    if payloads != [] {
      assert Judge(payloads[0]) == Delivered && AllTyped(payloads[1..]);
      HandledTyped(Handled(st, payloads[0]), payloads[1..]);
      assert st.delivered + payloads == st.delivered + [payloads[0]] + payloads[1..];
    }
  }

  lemma FedDelimiter(st: State)
    ensures FedByte(st, 0).Clean()
  {
  }

  /** A frame makes the parser decode at most one payload, whatever was buffered before it. */
  lemma FrameMeets(st: State, first: Payload)
    ensures var met := Fed(st, Frame.FrameOf(first));
      met.decoded == st.decoded || exists x :: met.decoded == st.decoded + [x]
  {
    hide Frame.BlockOf, Frame.PayloadOf, Judge;
    var frame, block := Frame.FrameOf(first), Frame.BlockOf(first);
    Frame.FrameShape(first);
    assert frame[..|frame| - 1] == block && frame[|frame| - 1] == 0;
    FedZeroFree(st, block);
    var before := Fed(st, block);
    if !before.discarding && before.buf != [] {
      AttemptAdds(before, before.buf);
    }
  }

  lemma AttemptAdds(st: State, block: seq<byte>)
    ensures Attempted(st, block).decoded == st.decoded || exists x :: Attempted(st, block).decoded == st.decoded + [x]
  {
    hide Frame.PayloadOf, Judge;
  }

  lemma {:induction false} FedZeroFree(st: State, data: seq<byte>)
    requires ZeroFree(data)
    ensures Fed(st, data).decoded == st.decoded
    decreases |data|
  {
    if data != [] {
      FedZeroFree(st, data[..|data| - 1]);
    }
  }

  /** Whatever came before, at most the first frame is lost: from any state the parser
      decodes the second and every later frame, in order, and before them at most one
      payload more. */
  lemma Resynchronizes(st: State, first: Payload, later: seq<Payload>)
    requires AllSendable(later)
    ensures var met := Fed(st, Frame.FrameOf(first));
      met.Clean() &&
      Fed(st, Frame.FrameOf(first) + Concat(Frames(later))) == HandledAll(met, later) &&
      HandledAll(met, later).decoded == met.decoded + later &&
      (met.decoded == st.decoded || exists x :: met.decoded == st.decoded + [x])
  {
    FrameMeets(st, first);
    hide Frame.BlockOf, FedByte, Frames, HandledAll;
    var frame := Frame.FrameOf(first);
    var met := Fed(st, frame);
    FedDelimiter(Fed(st, frame[..|frame| - 1]));
    FedAppend(st, frame, Concat(Frames(later)));
    FedFrames(met, later);
    HandledLog(met, later);
  }

  // ---- the parser object --------------------------------------------------------------

  class HostParser {
    var buf: array<byte>
    var bufLen: nat
    var discarding: bool
    var stats: Stats
    var delivered: seq<Payload>    // what the typed callbacks were given
    ghost var decoded: seq<Payload>

    ghost predicate Valid()
      reads this
    {
      buf.Length == BUFFER && bufLen <= BUFFER
    }

    ghost function View(): (st: State)
      requires Valid()
      reads this, buf
    {
      State(buf[..bufLen], discarding, stats, decoded, delivered)
    }

    constructor ()
      ensures Valid() && fresh(buf) && View() == FRESH
    {
      buf := new byte[BUFFER];
      bufLen, discarding := 0, false;
      stats, delivered, decoded := NO_STATS, [], [];
    }

    /** Consumes a chunk, of any size. */
    method Feed(data: seq<byte>)
      requires Valid()
      modifies this, buf
      ensures Valid() && buf == old(buf)
      ensures View() == Fed(old(View()), data)
    {
      hide Attempted;
      for i := 0 to |data|
        invariant Valid() && buf == old(buf)
        invariant View() == Fed(old(View()), data[..i])
      {
        ghost var st := View();
        assert data[..i + 1][..i] == data[..i];
        var b := data[i];
        if b == 0x00 {
          if discarding {
            discarding := false;
          } else if bufLen > 0 {
            ProcessBlock();
            AttemptedKeeps(st, st.buf);
          }
          bufLen := 0;
        } else if discarding {
        } else if bufLen >= buf.Length {
          discarding, bufLen := true, 0;
          stats := stats.(oversizeResyncs := stats.oversizeResyncs + 1);
        } else {
          buf[bufLen] := b;
          bufLen := bufLen + 1;
          assert buf[..bufLen] == st.buf + [b];
        }
      }
      assert data[..|data|] == data;
    }

    /** Drops a partial frame, and keeps the counters. */
    method Reset()
      requires Valid()
      modifies this
      ensures Valid() && buf == old(buf)
      ensures View() == old(View()).(buf := [], discarding := false)
    {
      bufLen, discarding := 0, false;
    }

    method ProcessBlock()
      requires Valid()
      modifies this`stats, this`delivered, this`decoded
      ensures Valid()
      ensures View() == Attempted(old(View()), old(View()).buf)
    {
      hide Frame.PayloadOf, Judge;
      var payload := new byte[Frame.MAX_PAYLOAD];
      var plen := Frame.Decode(buf[..bufLen], payload, payload.Length);
      if plen == 0 {
        stats := stats.(decodeErrors := stats.decodeErrors + 1);
        return;
      }
      var p := payload[..plen];
      decoded := decoded + [p];
      match Judge(p) {
        case Delivered =>
          delivered := delivered + [p];
          stats := stats.(framesOk := stats.framesOk + 1);
        case SizeMismatch =>
          stats := stats.(sizeMismatch := stats.sizeMismatch + 1);
        case UnknownType =>
          stats := stats.(unknownTypes := stats.unknownTypes + 1);
      }
    }
  }

  // ---- what is delivered ----------------------------------------------------------------------

  /** The widths of a packet's fields on the wire, added up, for the types the host is sent. */
  function Layout(t: byte): (width: Option<nat>) {
    if t == 0x01 then Some(1 + 2 + 2 + 4 + 4 * 4 + 1)           // type, id, seq, t_us, quaternion, flags
    else if t == 0x02 then Some(1 + 4 + 2 + 1 + 1)              // type, uptime, rate, trackers, flags
    else if t == 0x03 then Some(1 + 2 + 2 + 4 + 3 * 2 + 3 * 2 + 1)   // type, id, seq, t_us, gyro, accel, ranges
    else if t == 0x04 then Some(1 + 1 + 3 + 1 + 2)              // type, protocol, version, device, caps
    else if t == 0x05 then Some(1 + 2 + 4 + 2 + 4 + 2 + 3 + 1 + 1)   // type, id, age, rate, lost, battery,
    else None                                                   // version, mode, flags
  }

  /** A log line, or a packet of a known type that is exactly as long as its fields. */
  predicate Proper(payload: Payload)
    requires payload != []
  {
    payload[0] == 0x7F || (Layout(payload[0]).Some? && |payload| == Layout(payload[0]).value)
  }

  predicate Known(payload: Payload)
    requires payload != []
  {
    payload[0] == 0x7F || Layout(payload[0]).Some?
  }

  /** Proper payloads are delivered, others of a known type are mismatches, the rest unknown. */
  lemma JudgedByLayout(payload: Payload)
    requires payload != []
    ensures Judge(payload) == Delivered <==> Proper(payload)
    ensures Judge(payload) == SizeMismatch <==> Known(payload) && !Proper(payload)
    ensures Judge(payload) == UnknownType <==> !Known(payload)
  {
  }

  /** Those of the payloads that satisfy `p`, in order. */
  function Those(payloads: seq<Payload>, p: Payload -> bool): (kept: seq<Payload>)
    decreases |payloads|
  {
    if payloads == [] then []
    else
      var last := payloads[|payloads| - 1];
      Those(payloads[..|payloads| - 1], p) + if p(last) then [last] else []
  }

  /** The three outcomes of a payload that decoded are told apart by its layout alone. */
  ghost predicate SortedOut(st: State) {
    && st.delivered == Those(st.decoded, x => x != [] && Proper(x))
    && st.stats.framesOk == |st.delivered|
    && st.stats.sizeMismatch == |Those(st.decoded, x => x != [] && Known(x) && !Proper(x))|
    && st.stats.unknownTypes == |Those(st.decoded, x => x != [] && !Known(x))|
  }

  lemma HandledSorted(st: State, payload: Payload)
    requires payload != [] && SortedOut(st)
    ensures SortedOut(Handled(st, payload))
  {
    hide Judge, Proper, Known;
    JudgedByLayout(payload);
    var all := st.decoded + [payload];
    assert all[..|all| - 1] == st.decoded && all[|all| - 1] == payload;
  }

  lemma ByteSorted(st: State, b: byte)
    requires SortedOut(st)
    ensures SortedOut(FedByte(st, b))
  {
    hide Frame.PayloadOf, Handled, Those;
    var payload := Frame.PayloadOf(st.buf);
    if payload.Some? {
      DecodedSomething(st.buf);
      HandledSorted(st, payload.value);
    }
  }

  lemma DecodedSomething(block: seq<byte>)
    requires Frame.PayloadOf(block).Some?
    ensures Frame.PayloadOf(block).value != []
  {
  }

  /** Over any stream: of the payloads that decoded, exactly the proper ones are handed on, in order,
      and counted as good frames; every other length of a known type counts as a mismatch, every other
      type as unknown. */
  lemma {:induction false} AllSortedOut(stream: seq<byte>)
    ensures SortedOut(Fed(FRESH, stream))
    decreases |stream|
  {
    hide FedByte, SortedOut;
    if stream == [] {
      NothingSorted();
    } else {
      AllSortedOut(stream[..|stream| - 1]);
      ByteSorted(Fed(FRESH, stream[..|stream| - 1]), stream[|stream| - 1]);
    }
  }

  lemma NothingSorted()
    ensures SortedOut(FRESH)
  {
  }
}
