/** Frames, firmware/common/protocol/htk_frame.c: COBS of payload and CRC, then the
    delimiter. */
module Frame {
  import opened Wire
  import Cobs
  import Crc16

  const MAX_PAYLOAD := 59
  const MAX_FRAME := 64

  type Payload = seq<byte>

  predicate Sendable(payload: Payload) {
    1 <= |payload| <= MAX_PAYLOAD
  }

  function Sealed(payload: Payload): (data: seq<byte>) {
    var crc := Crc16.Crc(payload);
    payload + [Crc16.LowByte(crc), Crc16.HighByte(crc)]
  }

  /** The frame without its delimiter. */
  function BlockOf(payload: Payload): (block: seq<byte>) {
    Cobs.Encoded(Sealed(payload))
  }

  function FrameOf(payload: Payload): (frame: seq<byte>) {
    BlockOf(payload) + [0]
  }

  /** What decoded data carries: nothing unless it is long enough, fits the receiver's
      buffer and ends with its own CRC. */
  function Opened(data: seq<byte>): (payload: Option<Payload>)
    ensures payload.Some? ==> Sendable(payload.value)
  {
    if |data| < 3 || |data| > MAX_PAYLOAD + 2 then None
    else
      var len := |data| - 2;
      if Crc16.Crc(data[..len]) == Crc16.FromBytes(data[len], data[len + 1])
      then Some(data[..len]) else None
  }

  /** What a block between two delimiters carries. */
  function PayloadOf(block: seq<byte>): (payload: Option<Payload>)
    ensures payload.Some? ==> Sendable(payload.value)
  {
    match Cobs.Decoded(block)
    case None => None
    case Some(data) => Opened(data)
  }

  /** Data opens to a payload exactly when it is that payload, sealed. */
  lemma OpenedSealed(data: seq<byte>, payload: Payload)
    ensures Opened(data) == Some(payload) <==> Sendable(payload) && data == Sealed(payload)
  {
    hide Crc16.Crc, Crc16.FromBytes, Crc16.LowByte, Crc16.HighByte;
    if 3 <= |data| {
      var len := |data| - 2;
      Crc16.StoredBytes(Crc16.Crc(data[..len]), data[len], data[len + 1]);
      assert data == data[..len] + [data[len], data[len + 1]];
    }
    assert Sealed(payload)[..|payload|] == payload;
  }

  /** Encoding then decoding gives the payload back. */
  lemma RoundTrip(payload: Payload)
    requires Sendable(payload)
    ensures PayloadOf(BlockOf(payload)) == Some(payload)
  {
    hide Cobs.Encoded, Cobs.Decoded, Opened, Sealed;
    Cobs.DecodedEncoded(Sealed(payload));
    OpenedSealed(Sealed(payload), payload);
  }

  /** A block with no zero in it is accepted exactly when it is the frame of the payload
      it yields: no other byte string passes for a frame. */
  lemma AcceptedIsFrame(block: seq<byte>, payload: Payload)
    requires ZeroFree(block)
    ensures PayloadOf(block) == Some(payload) <==> Sendable(payload) && block == BlockOf(payload)
  {
    hide Cobs.Encoded, Opened, Sealed, Crc16.Crc;
    if Sendable(payload) {
      RoundTrip(payload);
    }
    if PayloadOf(block) == Some(payload) {
      var data := Cobs.Decoded(block).value;
      OpenedSealed(data, payload);
      SealedLength(payload);
      assert block != [];
      Cobs.EncodedDecoded(block);
      if Cobs.EndsOnFullRun(block) {
        FullRunIsLong(block);
      }
    }
  }

  lemma SealedLength(payload: Payload)
    ensures |Sealed(payload)| == |payload| + 2
  {
  }

  lemma {:induction false} FullRunIsLong(block: seq<byte>)
    requires Cobs.Decoded(block).Some? && Cobs.EndsOnFullRun(block)
    ensures |Cobs.Decoded(block).value| >= Cobs.MAX_RUN
    decreases |block|
  {
    if Cobs.Rest(block) != [] {
      FullRunIsLong(Cobs.Rest(block));
    }
  }

  /** A frame fits the receiver's buffer, and only its last byte is zero. */
  lemma FrameShape(payload: Payload)
    ensures ZeroFree(BlockOf(payload))
    ensures Sendable(payload) ==> |payload| + 4 == |FrameOf(payload)| < MAX_FRAME
  {
    hide Cobs.Encoded, Sealed;
    SealedLength(payload);
    Cobs.EncodedZeroFree(Sealed(payload));
    Cobs.EncodedLength(Sealed(payload));
  }

  /** Changing one byte of an encoded frame, other than a code byte, to any other value
      makes the decoder reject it. */
  lemma CorruptionDetected(payload: Payload, p: nat, v: byte)
    requires Sendable(payload)
    requires p < |BlockOf(payload)| && !Cobs.IsCode(BlockOf(payload), p) && BlockOf(payload)[p] != v
    ensures PayloadOf(BlockOf(payload)[p := v]) == None
  {
    hide Cobs.Encoded, Cobs.Decoded, Cobs.IsCode, Opened, Sealed;
    var data := Sealed(payload);
    Cobs.DecodedEncoded(data);
    Cobs.DecodedCorrupted(BlockOf(payload), p, v);
    SealedChanged(payload, Cobs.DataIndex(BlockOf(payload), p), v);
  }

  lemma SealedChanged(payload: Payload, k: nat, v: byte)
    requires Sendable(payload) && k < |Sealed(payload)| && Sealed(payload)[k] != v
    ensures Opened(Sealed(payload)[k := v]) == None
  {
    hide Crc16.Crc, Crc16.FromBytes, Crc16.LowByte, Crc16.HighByte;
    var bad, len := Sealed(payload)[k := v], |payload|;
    Crc16.StoredBytes(Crc16.Crc(bad[..len]), bad[len], bad[len + 1]);
    Crc16.StoredBytes(Crc16.Crc(payload), bad[len], bad[len + 1]);
    if k < len {
      Crc16.ByteChangeDetected(payload, k, v);
      assert bad[..len] == payload[k := v];
    } else {
      assert bad[..len] == payload;
    }
  }

  // ---- the array algorithms --------------------------------------------------------

  /** Builds a frame; zero exactly when the payload may not be sent or the frame does not
      fit in output[..cap]. */
  method Encode(payload: Payload, output: array<byte>, cap: nat) returns (n: nat)
    requires cap <= output.Length
    modifies output
    ensures n == if Sendable(payload) && |FrameOf(payload)| <= cap then |FrameOf(payload)| else 0
    ensures n > 0 ==> output[..n] == FrameOf(payload)
    ensures forall k :: cap <= k < output.Length ==> output[k] == old(output[k])
  {
    hide Cobs.Encoded, Crc16.Crc, Crc16.LowByte, Crc16.HighByte;
    var len := |payload|;
    if len == 0 || len > MAX_PAYLOAD {
      return 0;
    }
    var buf := new byte[MAX_PAYLOAD + 2];
    for i := 0 to len
      invariant forall k :: 0 <= k < i ==> buf[k] == payload[k]
      invariant forall k :: cap <= k < output.Length ==> output[k] == old(output[k])
    {
      buf[i] := payload[i];
    }
    var crc := Crc16.Compute(payload);
    buf[len] := Crc16.LowByte(crc);
    buf[len + 1] := Crc16.HighByte(crc);
    assert buf[..len + 2] == Sealed(payload);
    Cobs.EncodedLength(Sealed(payload));
    var enc := Cobs.Encode(buf[..len + 2], output, cap);
    if enc == 0 || enc + 1 > cap {
      return 0;
    }
    output[enc] := 0x00;
    n := enc + 1;
    assert output[..n] == output[..enc] + [0];
  }

  /** Decodes one block; zero exactly when it carries no payload or the payload does not
      fit in output[..cap]. */
  method Decode(block: seq<byte>, output: array<byte>, cap: nat) returns (n: nat)
    requires cap <= output.Length
    modifies output
    ensures n == match PayloadOf(block)
                 case None => 0
                 case Some(payload) => if |payload| <= cap then |payload| else 0
    ensures n > 0 ==> output[..n] == PayloadOf(block).value
  {
    hide Cobs.Decoded, Crc16.Crc, Crc16.FromBytes;
    var buf := new byte[MAX_PAYLOAD + 2];
    var dec := Cobs.Decode(block, buf, buf.Length);
    if dec < 3 {
      return 0;
    }
    ghost var data := Cobs.Decoded(block).value;
    var plen := dec - 2;
    var rxCrc := Crc16.FromBytes(buf[plen], buf[plen + 1]);
    assert data[..plen] == buf[..plen];
    var crc := Crc16.Compute(buf[..plen]);
    if crc != rxCrc {
      return 0;
    }
    if plen > cap {
      return 0;
    }
    for i := 0 to plen
      invariant forall k :: 0 <= k < i ==> output[k] == data[k]
      invariant buf[..dec] == data
    {
      output[i] := buf[i];
    }
    n := plen;
    assert output[..n] == data[..plen];
  }
}
