/** The dongle's own receive splitter, firmware/app_dongle/src/usb_io.c `rx_work_fn`: the
    same wire format read with a sticky overflow flag instead of a discard flag. */
module Splitter {
  import opened Wire
  import Frame
  import Parser

  type Payload = Frame.Payload

  const BLOCK := Frame.MAX_FRAME

  datatype State = State(block: seq<byte>, overflow: bool, badFrames: nat, dispatched: seq<Payload>)

  const FRESH := State([], false, 0, [])

  function TakenByte(st: State, b: byte): (next: State) {
    if b != 0 then
      if |st.block| < BLOCK then st.(block := st.block + [b]) else st.(overflow := true)
    else
      (if st.block == [] || st.overflow then st
       else match Frame.PayloadOf(st.block)
         case None => st.(badFrames := st.badFrames + 1)
         case Some(payload) => st.(dispatched := st.dispatched + [payload]))
        .(block := [], overflow := false)
  }

  function Taken(st: State, data: seq<byte>): (next: State)
    decreases |data|
  {
    if data == [] then st
    else TakenByte(Taken(st, data[..|data| - 1]), data[|data| - 1])
  }

  /** The splitter holds what the parser holds, except that on an oversized block the
      parser has dropped its buffer where the splitter keeps a full one. */
  ghost predicate Agree(p: Parser.State, s: State) {
    && p.discarding == s.overflow
    && (p.discarding ==> p.buf == [] && |s.block| == BLOCK)
    && (!p.discarding ==> p.buf == s.block && |s.block| <= BLOCK)
    && p.decoded == s.dispatched
    && p.stats.decodeErrors == s.badFrames
  }

  lemma AgreeStep(p: Parser.State, s: State, b: byte)
    requires Agree(p, s)
    ensures Agree(Parser.FedByte(p, b), TakenByte(s, b))
  {
    hide Frame.PayloadOf, Parser.Judge;
  }

  /** The two receivers run in step on every stream: they decode the same payloads, in the
      same order, and reject as many blocks. */
  lemma {:induction false} AgreeAlways(p: Parser.State, s: State, data: seq<byte>)
    requires Agree(p, s)
    ensures Agree(Parser.Fed(p, data), Taken(s, data))
    decreases |data|
  {
    hide Parser.FedByte, TakenByte;
    if data != [] {
      var start, b := data[..|data| - 1], data[|data| - 1];
      AgreeAlways(p, s, start);
      AgreeStep(Parser.Fed(p, start), Taken(s, start), b);
    }
  }

  lemma SamePayloads(data: seq<byte>)
    ensures Taken(FRESH, data).dispatched == Parser.Fed(Parser.FRESH, data).decoded
    ensures Taken(FRESH, data).badFrames == Parser.Fed(Parser.FRESH, data).stats.decodeErrors
  {
    AgreeAlways(Parser.FRESH, FRESH, data);
  }

  class Receiver {
    var block: array<byte>
    var blockLen: nat
    var overflow: bool
    var badFrames: nat
    var dispatched: seq<Payload>   // what dispatch_payload was given

    ghost predicate Valid()
      reads this
    {
      block.Length == BLOCK && blockLen <= BLOCK
    }

    ghost function View(): (st: State)
      requires Valid()
      reads this, block
    {
      State(block[..blockLen], overflow, badFrames, dispatched)
    }

    constructor ()
      ensures Valid() && fresh(block) && View() == FRESH
    {
      block := new byte[BLOCK];
      blockLen, overflow, badFrames, dispatched := 0, false, 0, [];
    }

    /** Drains the bytes the interrupt handler left in the receive ring. */
    method Work(data: seq<byte>)
      requires Valid()
      modifies this, block
      ensures Valid() && block == old(block)
      ensures View() == Taken(old(View()), data)
    {
      hide Frame.PayloadOf;
      for i := 0 to |data|
        invariant Valid() && block == old(block)
        invariant View() == Taken(old(View()), data[..i])
      {
        ghost var st := View();
        assert data[..i + 1][..i] == data[..i];
        var b := data[i];
        if b != 0x00 {
          if blockLen < block.Length {
            block[blockLen] := b;
            blockLen := blockLen + 1;
            assert block[..blockLen] == st.block + [b];
          } else {
            overflow := true;
          }
          continue;
        }
        if blockLen > 0 && !overflow {
          var payload := new byte[Frame.MAX_PAYLOAD];
          var n := Frame.Decode(block[..blockLen], payload, payload.Length);
          if n > 0 {
            dispatched := dispatched + [payload[..n]];
          } else {
            badFrames := badFrames + 1;
          }
        }
        blockLen, overflow := 0, false;
      }
      assert data[..|data|] == data;
    }
  }
}
