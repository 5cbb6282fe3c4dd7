# Head-tracker link: a verified model

A head unit measures its orientation and sends it by radio to a dongle, which forwards it over
USB to a host library. This project models the logic along that path and proves what it
guarantees. Each module follows one component, and each imperative component is a class or an
array method proved against a specification function whose properties are then proved as lemmas.

- `Wire`, `Cobs`, `Crc16`, `Frame`: the wire codec. Consistent Overhead Byte Stuffing (Cheshire
  and Baker, IEEE/ACM Transactions on Networking, 1999) as an exact inverse pair, CRC-16 with
  polynomial 0x1021 and initial value 0xFFFF as polynomial division, and frames of both.
- `Parser`, `Splitter`: the host's push parser and the dongle's differently coded receiver.
- `Ring`, `UsbPipe`: the dongle's wrapping transmit ring, drained by interrupts of any size: which
  frames are accepted, that they drain, and the end-to-end theorem `UsbPipe.EndToEnd`.
- `Commands`, `HeadRadio`, `Presence`: the timed protocol of beacons, carried commands, listen
  windows and power states, up to `Presence.Converges`.
- `HeadStream`, `Trackers`, `TrackerHistory`: the head's shared numbering of packets, the dongle's
  table of trackers with its loss accounting, and what the table says told by the packets alone.
- `TapDetector`: the double-tap state machine, over whole runs and timestamp wrap.
- `Seqlock`: the host's snapshot, one writer and any number of readers, field by field.
- `Angles`, `Orientation`, `Stabilizer`: reference frames, auto-level and auto-center on the host;
  `WearHistory` and `TapHistory`: what worn means and what a tap does, told by the samples alone.
- `Fusion`, `VqfFilter`: the drift machinery around the estimator on the head, and the
  estimator's self-starting low-pass filter.

How the system's terms are modelled:

- Bytes and fixed-width integers are bounded integers; 16- and 32-bit wrap-around is written out
  wherever the code relies on it. The CRC register is a 16-bit vector.
- Floats are reals. Pi, cosine, sine, arctangent, arccosine and square root come as one value of
  type `Angles.Math`; `Angles.Lawful` lists the laws the proofs use, all true of the real
  functions. A quaternion that is not finite, and a not-a-number marker in the filter state, is
  `None`.
- Concurrency is interleaving: the transmit pipe by events, the seqlock by single-field accesses
  with sequential consistency and an unbounded counter.
- Time on the radio link is integer milliseconds. `Presence.Timing` bounds beacon spacing and the
  overhead of each stage; `Presence.Fair` and `Presence.Roomy` say what the theorems need of it,
  and `Presence.NominalTiming` that a 100 ms period with some jitter and overhead provides it.
- The estimator inside `Fusion` is an oracle: every theorem there holds for any bias, uncertainty,
  quaternion and rest verdict on every sample, and for samples taken while suspended.
- Each dongle in range is a `Presence.Dongle`: when it beacons and what each beacon holds. Which
  dongles are in range may change from window to window.

Two properties turned out to need a condition, which is stated exactly. Tilt refinement keeps the
output heading if and only if `Orientation.TiltInvisible`'s condition on vertical poses holds;
`Orientation.GimbalJumps` is an instance where it does not. A constant passes the running filter
unchanged if and only if the gain is one (`VqfFilter.SteadyStep`), which every coefficient set the
code computes satisfies.

Where the code and its documentation differ, the model follows the code:

- docs/PROTOCOL.md:456-457 speaks of one pending command per target; the dongle has one slot for
  all targets (firmware/app_dongle/src/radio.c:38-42).
- docs/PROTOCOL.md:152 calls `seq_lost` cumulative since boot; claiming a slot zeroes it
  (firmware/app_dongle/src/trackers.c:73), as `Trackers.ClaimStarts` says.
- docs/PROTOCOL.md:197 limits LOG to 57 bytes; the parser accepts any length a frame can carry
  (host/libheadtracker/src/parser.cpp:91-97).
- host/libheadtracker/include/headtracker/orientation.hpp documents headings in (-pi, pi];
  `wrap_pi` keeps both ends, so half a turn has two names (`Angles.WrapUnique`).
- A comment in the tap handling speaks of seeding after a gap; the code seeds only on the first
  sample ever (host/libheadtracker/src/stabilizer.cpp:124-128).

## Model

| member | source | states |
|---|---|---|
| Cobs.DecodedEncoded | firmware/common/protocol/htk_cobs.c:4-70 | decoding an encoding gives the data back, for data of any length |
| Cobs.EncodedDecoded | firmware/common/protocol/htk_cobs.c:4-70 | a zero-free block that decodes is the encoding of what it says, or lacks only the encoder's final empty group, the latter exactly when it ends on a 0xFF group |
| Cobs.EncodedZeroFree | firmware/common/protocol/htk_cobs.c:4-43 | the delimiter never occurs inside an encoded block |
| Cobs.EncodedLength | firmware/common/protocol/htk_cobs.h:13-14 | the encoding of n bytes is at most n + n/254 + 1 long and longer than n |
| Cobs.DecodedCorrupted | firmware/common/protocol/htk_cobs.c:45-70 | changing one non-code byte to another non-zero value changes exactly the data byte it stands for |
| Cobs.CloseGroup | firmware/common/protocol/htk_cobs.c:8-42 | closing a group writes its code over the placeholder and keeps everything stored before it |
| Cobs.Encode | firmware/common/protocol/htk_cobs.c:4-43 | the in-place encoder stores exactly the encoding, or returns zero exactly when the capacity is below its exact length |
| Cobs.CopyRun | firmware/common/protocol/htk_cobs.c:52-62 | the inner copy loop appends one run, or fails exactly when the run does not fit |
| Cobs.Decode | firmware/common/protocol/htk_cobs.c:45-70 | the decoder stores exactly the decoded data; zero exactly when the block is malformed, empty or too long for the output |
| Crc16.Compute | firmware/common/protocol/htk_crc16.c:4-16 | the nested loops compute the specified register |
| Crc16.FeedBytesBits | firmware/common/protocol/htk_crc16.c:6-14 | the byte-wise loop equals feeding the message bit by bit, most significant first |
| Crc16.CrcIsRemainder | firmware/common/protocol/htk_crc16.c:4-16 | the register is the remainder of schoolbook long division over GF(2) by x^16 + x^12 + x^5 + 1, with the first sixteen coefficients inverted |
| Crc16.FeedBitsLinear | firmware/common/protocol/htk_crc16.c:8-13 | feeding is linear in register and message together, so affine in each |
| Crc16.FeedBitsInjective | firmware/common/protocol/htk_crc16.c:8-13 | for any fixed message the register's end value determines its start value |
| Crc16.BurstDetected | firmware/common/protocol/htk_crc16.c:4-16 | two equal-length payloads whose difference spans at most 16 consecutive bits never share a CRC |
| Crc16.ByteChangeDetected | firmware/common/protocol/htk_crc16.c:4-16 | changing any one byte changes the CRC |
| Crc16.StoredBytes | firmware/common/protocol/htk_frame.c:17-19 | two received bytes read back as a register exactly when they are the two bytes stored for it, low byte first |
| Frame.RoundTrip | firmware/common/protocol/htk_frame.c:7-49 | the block between a frame's delimiters opens to the payload it was built from |
| Frame.AcceptedIsFrame | firmware/common/protocol/htk_frame.c:29-49 | a zero-free block is accepted as a payload if and only if it is that payload's frame without its delimiter |
| Frame.OpenedSealed | firmware/common/protocol/htk_frame.c:37-48 | decoded data carries a payload exactly when it is that payload followed by its CRC |
| Frame.FrameShape | firmware/common/protocol/htk_frame.c:7-27 | a sendable payload's frame is four bytes longer than it, fewer than 64, and its only zero is the last |
| Frame.CorruptionDetected | firmware/common/protocol/htk_frame.c:29-49 | changing one non-code byte of a frame to another non-zero value always makes the decoder reject it |
| Frame.Encode | firmware/common/protocol/htk_frame.c:7-27 | writes the payload's frame, or returns zero exactly when the payload's length is illegal or the frame does not fit |
| Frame.Decode | firmware/common/protocol/htk_frame.c:29-49 | writes the payload a block carries, or returns zero exactly when it carries none or the output is too small |
| Parser.ChunkingIrrelevant | host/libheadtracker/src/parser.cpp:12-40 | the parser's state depends on the bytes, not on how they are cut into calls |
| Parser.FedIsBatch | host/libheadtracker/src/parser.cpp:12-108 | the push parser refines a batch specification: decode attempts are exactly the non-empty zero-separated blocks of at most 64 bytes, in order |
| Parser.CutJoins | host/libheadtracker/src/parser.cpp:17-26 | the batch specification's cut loses no byte: blocks, delimiters and rest give the stream back |
| Parser.CountersComplete | host/libheadtracker/src/parser.cpp:27-37 | the five counters sum to the completed non-empty blocks, plus one while discarding |
| Parser.FedFrame | host/libheadtracker/src/parser.cpp:12-108 | between blocks, feeding a frame handles exactly its payload |
| Parser.HandledLog | host/libheadtracker/src/parser.cpp:64-108 | handling payloads one after the other logs exactly them and counts each exactly once, never as a decode error or a resync |
| Parser.HandledTyped | host/libheadtracker/src/parser.cpp:74-107 | payloads of known types and sizes are all counted as good frames and handed on, in order |
| Parser.JudgedByLayout | firmware/common/protocol/htk_protocol.h:116-165 | a decoded payload is delivered exactly if it is a log line or as long as the fields of its type; another length of a known type is a size mismatch, another type unknown |
| Parser.AllSortedOut | host/libheadtracker/src/parser.cpp:64-108 | over any stream exactly the proper ones of the decoded payloads are handed on, in order, and each of the three outcomes is counted as often as it happens |
| Parser.Resynchronizes | host/libheadtracker/src/parser.cpp:12-40 | from any state and after any garbage the payloads after a first frame are handled in order, and before them at most one payload more was decoded |
| Parser.HostParser.constructor | host/libheadtracker/src/parser.cpp:12-46 | a new parser is in the empty state |
| Parser.HostParser.Feed | host/libheadtracker/src/parser.cpp:12-40 | the byte loop over buffer, flag and counters takes the state to the specified one |
| Parser.HostParser.Reset | host/libheadtracker/src/parser.cpp:42-46 | reset clears buffer and flag and keeps the counters |
| Parser.HostParser.ProcessBlock | host/libheadtracker/src/parser.cpp:64-108 | one decode attempt counts and hands on exactly as specified |
| Splitter.AgreeStep | firmware/app_dongle/src/usb_io.c:130-158 | one byte keeps firmware splitter and host parser related, sticky overflow flag against discard flag |
| Splitter.AgreeAlways | firmware/app_dongle/src/usb_io.c:130-158 | they stay related on every stream |
| Splitter.SamePayloads | firmware/app_dongle/src/usb_io.c:130-158 | both receivers decode the same payloads from every stream |
| Splitter.Receiver.constructor | firmware/app_dongle/src/usb_io.c:55-58 | the splitter starts empty |
| Splitter.Receiver.Work | firmware/app_dongle/src/usb_io.c:130-158 | the byte loop takes the splitter to the specified state |
| Ring.ByteRing.constructor | firmware/app_dongle/src/usb_io.c:44-45 | the ring starts empty, with its capacity |
| Ring.ByteRing.PutByte | firmware/app_dongle/src/usb_io.c:239-240 | one byte is appended across the wrap |
| Ring.ByteRing.Put | firmware/app_dongle/src/usb_io.c:239-240 | a run of bytes that fits is appended in order |
| Ring.ByteRing.GetByte | firmware/app_dongle/src/usb_io.c:185-189 | the oldest byte is taken |
| Ring.ByteRing.Get | firmware/app_dongle/src/usb_io.c:190 | the oldest n bytes are taken in order |
| UsbPipe.AlwaysConserved | firmware/app_dongle/src/usb_io.c:179-251 | on every run the bytes on the wire, the rest of the frame in flight and the queued frames are, in this order, the accepted frames; every queued frame is non-empty and fits the in-flight buffer, and all of them with their length bytes fit the ring |
| UsbPipe.WholeIsWhole | firmware/app_dongle/src/usb_io.c:196-214 | the number of whole frames in a wire prefix is the largest that fits it |
| UsbPipe.FedPrefix | host/libheadtracker/src/parser.cpp:12-108 | a parser fed any prefix of concatenated frames handles the payloads of the whole ones, and nothing else |
| UsbPipe.SendDecided | firmware/app_dongle/src/usb_io.c:221-253 | after any run a send changes nothing unless the host is configured and the payload legal; then the frame is accepted behind all before it unless fewer ring bytes are free than its length and one, and only then it is dropped and counted |
| UsbPipe.OfferedAccounted | firmware/app_dongle/src/usb_io.c:221-253 | the frames accepted and the frames dropped are together the legal payloads sent while the host was configured |
| UsbPipe.TurnMoves | firmware/app_dongle/src/usb_io.c:179-217 | one transmit-ready turn moves as much of the oldest unfinished frame as the USB stack has room for, at least a byte if it has room for one and anything waits |
| UsbPipe.Drains | firmware/app_dongle/src/usb_io.c:179-217 | whatever waits is wholly on the wire, in order, after as many turns with room as it has bytes |
| UsbPipe.EndToEnd | firmware/app_dongle/src/usb_io.c:162-251 | for every interleaving of producers, fetches and fills of any size and every chunking, a fresh host parser on the wire bytes decodes exactly the payloads of the complete accepted frames, in order, each counted once and never as a decode error or resync; if the accepted payloads are of known types and sizes, all five counters and the callbacks are exact too |
| UsbPipe.Pipe.constructor | firmware/app_dongle/src/usb_io.c:44-51 | the pipe starts empty and unconfigured |
| UsbPipe.Pipe.SetConfigured | firmware/app_dongle/src/usb_io.c:263-279 | only the configured flag changes |
| UsbPipe.Pipe.PutFrame | firmware/app_dongle/src/usb_io.c:236-240 | a frame that fits is queued whole, behind its length byte |
| UsbPipe.Pipe.SendPayload | firmware/app_dongle/src/usb_io.c:221-251 | whole frame queued, or dropped and counted, or ignored while no host is configured, as specified |
| UsbPipe.Pipe.FetchFrame | firmware/app_dongle/src/usb_io.c:180-194 | with nothing in flight the oldest frame is taken whole into the in-flight buffer |
| UsbPipe.Pipe.FillFifo | firmware/app_dongle/src/usb_io.c:196-200 | a fill of any size moves the head of the frame in flight to the wire |
| UsbPipe.Pipe.TxReady | firmware/app_dongle/src/usb_io.c:179-215 | one tx-ready turn is a fetch if nothing is in flight, then one fill |
| Seqlock.StepInvariant | host/libheadtracker/src/stabilizer.cpp:77-99 | every single-field access of writer or reader keeps the protocol invariant |
| Seqlock.Always | host/libheadtracker/src/stabilizer.cpp:77-99 | the invariant holds on every run |
| Seqlock.ReturnIsCurrent | host/libheadtracker/src/stabilizer.cpp:86-99 | a call that returns, returns the snapshot that is current at its second counter read |
| Seqlock.NoTornReads | host/libheadtracker/src/stabilizer.cpp:77-99 | on every interleaving every result is one wholly published snapshot, or the initial one |
| Seqlock.NeverBack | host/libheadtracker/src/stabilizer.cpp:77-99 | later results, of any reader, never go back in publish order |
| Seqlock.ReturnsAreFresh | host/libheadtracker/src/stabilizer.cpp:86-99 | a result is no older than the publishes finished before the call returned |
| Seqlock.PublishedGrows | host/libheadtracker/src/stabilizer.cpp:77-84 | the publish history only grows |
| TapDetector.EventIff | firmware/common/imu/htk_tapdet.c:35-113 | an event happens at a sample exactly when the machine sits in the gap after a first spike, the sample spikes and the floored gap lies within its limits |
| TapDetector.Stories | firmware/common/imu/htk_tapdet.c:30-113 | what each state of the machine says about the samples behind it, on every run and across timestamp wrap |
| TapDetector.EventHistory | firmware/common/imu/htk_tapdet.c:60-113 | behind every event lie an earlier spike and then a quiet sample, with no spike between it and the event and floored milliseconds within the gap limits |
| TapDetector.QuietIsNoSpike | firmware/common/imu/htk_tapdet.c:56-58 | with the configured threshold order a quiet sample is not a spike |
| TapDetector.HeldAfter | firmware/common/imu/htk_tapdet.c:60-113 | after an event everything the machine does next is a hold-off away from it |
| TapDetector.EventsApart | firmware/common/imu/htk_tapdet.c:60-113 | two events are at least 1000 * (refractory + 1 + smallest gap) microseconds apart |
| TapDetector.MsSinceTrue | firmware/common/imu/htk_tapdet.c:30-33 | within one wrap the 32-bit difference gives the true floored milliseconds |
| TapDetector.StartIff | firmware/common/imu/htk_tapdet.c:61-99 | a spike is taken for the first of a tap exactly on an idle machine, or in a gap whose bounds it misses |
| TapDetector.TapEnds | firmware/common/imu/htk_tapdet.c:69-76 | the first quiet sample ends that tap; shaking beyond the shock limit gives it up |
| TapDetector.GapWaits | firmware/common/imu/htk_tapdet.c:78-99 | without a spike the machine waits out the largest gap and is idle after it |
| TapDetector.DoubleTap | firmware/common/imu/htk_tapdet.c:60-105 | no double tap is missed: a first spike, quiet within the shock limit, then no spike until one whose gap is within bounds give an event; with the gap out of bounds that spike starts a new one |
| TapDetector.ReadyAgain | firmware/common/imu/htk_tapdet.c:101-105 | after an event everything is ignored for the refractory time, and then the machine is idle |
| TapDetector.SensedIs | firmware/common/imu/htk_tapdet.c:40-57 | after exactly the warm-up samples a sample is a spike or quiet by its distance from the moving mean it is part of, a mean weighted by time constant and interval |
| TapDetector.Detector.constructor | firmware/common/imu/htk_tapdet.c:13-28 | the detector starts idle, with the warm-up its rate asks for |
| TapDetector.Detector.Feed | firmware/common/imu/htk_tapdet.c:35-113 | one sample takes the detector to the specified state and reports the specified event |
| Trackers.StepUnique | firmware/app_dongle/src/trackers.c:49-78 | no id ever has two slots |
| Trackers.OthersKept | firmware/app_dongle/src/trackers.c:49-135 | no event of another tracker touches the slot of one heard within 30 s |
| Trackers.OwnSlot | firmware/app_dongle/src/trackers.c:80-135 | an event is recorded in the slot of its own tracker |
| Trackers.RefusedIff | firmware/app_dongle/src/trackers.c:49-78 | a tracker is turned away exactly when eight others, each heard within 30 s, fill the table |
| Trackers.LossAccounted | firmware/app_dongle/src/trackers.c:97-112 | under any interleaving, as long as received true numbers stay in [high - 32767, high + 32768], lost plus advances equals highest minus first since the claim, modulo 2^32 |
| Trackers.ReceivedPlusLost | firmware/app_dongle/src/trackers.c:97-112 | on an in-order stream, continued from any point in the life of a slot, received plus lost is the highest number minus the first plus one, modulo 2^32 |
| Trackers.IssuedAccounted | firmware/app_head/src/main.c:363-389 | of the packets a head issued in any modes and rates let any in-order selection arrive, among other trackers' traffic, from any point in the life of its slot: received plus lost is the number of packets it issued from the first received to the last, modulo 2^32, and the table saw only the 16-bit numbers they carry |
| Trackers.IssuedSinceClaim | firmware/app_dongle/src/trackers.c:49-135 | the same over a whole stay in the table, from the packet that claims the slot and counting it, a sample or a status report: samples received plus lost is the number of packets issued from the first received to the last, modulo 2^32, and the last number kept is the one the last carries |
| Trackers.ClaimStarts | firmware/app_dongle/src/trackers.c:72-76 | a claimed slot starts with empty books, whatever it held before |
| Trackers.Table.constructor | firmware/app_dongle/src/trackers.c:39 | the table starts with every slot blank |
| Trackers.Table.Claim | firmware/app_dongle/src/trackers.c:49-78 | the scanning loop finds the specified slot and clears it if it is new |
| Trackers.Table.OnSample | firmware/app_dongle/src/trackers.c:80-114 | a sample updates the table as specified |
| Trackers.Table.OnTstatus | firmware/app_dongle/src/trackers.c:116-135 | a status report updates the table as specified |
| Trackers.Table.Tick1Hz | firmware/app_dongle/src/trackers.c:190-211 | the tick closes the second of every slot and drops the silent ones, as specified |
| TrackerHistory.SeenIs | firmware/app_dongle/src/trackers.c:80-124 | on every run from power-on the time recorded for a tracker in the table is that of its last packet |
| TrackerHistory.TickKeepsIff | firmware/app_dongle/src/trackers.c:190-211 | a tick keeps exactly the trackers whose last packet came no more than 30 s before it |
| TrackerHistory.HeardKept | firmware/app_dongle/src/trackers.c:49-78 | another tracker's packet changes nothing for one whose last packet came within 30 s, and puts out a staler one only when no slot is free |
| TrackerHistory.TurnedAwayIff | firmware/app_dongle/src/trackers.c:49-78 | a packet's tracker is out of the table afterwards exactly when eight others, each with a packet in the last 30 s, fill it |
| TrackerHistory.WasClaimed | firmware/app_dongle/src/trackers.c:69-77 | every slot in use was claimed by a packet of its tracker, which was not in the table, and kept since |
| TrackerHistory.SlotTells | firmware/app_dongle/src/trackers.c:80-211 | what a slot says is what its tracker sent since it claimed it: the time of its last packet, its samples since the last tick and in the second before, both capped, and its last report, or zeros |
| HeadStream.Streamer.constructor | firmware/app_head/src/main.c:71 | numbering and decimation start at zero |
| HeadStream.Streamer.Number | firmware/app_head/src/main.c:367 | one number is taken, with wrap |
| HeadStream.Streamer.OnSample | firmware/app_head/src/main.c:338-390 | a sample is skipped or issues the packets of its mode, as specified |
| HeadStream.NumbersIssued | firmware/app_head/src/main.c:363-389 | whatever mode and rate do, the k-th packet since boot carries k modulo 2^16; both kinds share one gapless numbering |
| HeadStream.KindsIssued | firmware/app_head/src/main.c:363-389 | each transmitted sample issues one packet of each kind its mode asks for, orientation before raw, and nothing else is issued, whatever the mode does in between |
| HeadStream.OneMode | firmware/app_head/src/main.c:363-389 | in quaternion mode no raw packet, in raw mode no orientation packet, in both one of each per sample in turn |
| HeadStream.OffIsSilent | firmware/app_head/src/main.c:338-346 | while not streaming nothing is issued and no number used, and the decimation starts over |
| HeadStream.EveryNth | firmware/app_head/src/main.c:338-346 | while streaming at one rate exactly every tx_div-th sample is transmitted, counted from where the decimation stood; a count at or beyond the divider, as a lower rate leaves it, makes the first sample go out |
| Commands.CarriedThirtyTimes | firmware/app_dongle/src/radio.c:132-154 | an admitted command that is not replaced rides unaltered in exactly the next thirty beacons, whatever was pending before; all beacons are numbered on modulo 2^8 |
| Commands.Radio.constructor | firmware/app_dongle/src/radio.c:38-44 | nothing is pending at first |
| Commands.Radio.SetPendingCmd | firmware/app_dongle/src/radio.c:306-319 | the latest command wins and its repeats restart; one that does not fit is ignored |
| Commands.Radio.BeaconWork | firmware/app_dongle/src/radio.c:132-154 | one beacon carries the pending command if any repeat is left, and uses it up |
| Commands.NearestIsNearest | firmware/app_head/src/main.c:399-418 | the chosen rate is supported, none is nearer, a lower one is strictly farther, and divider times rate is 416 |
| Commands.ObeyedHolds | firmware/app_head/src/main.c:424-493 | from any state the addressed head obeys, and obeying twice leaves the same settings as obeying once |
| Commands.OthersIgnore | firmware/app_head/src/main.c:424-493 | a head with another id does not change |
| Commands.OnlyAsked | firmware/app_head/src/main.c:424-493 | for any command whatever: the mode changes only by an addressed legal mode command and to what it says, rate and divider only by an addressed rate command, and resets and identifications each count exactly their own addressed commands |
| Commands.SettingsHistory | firmware/app_head/src/main.c:424-493 | after any beacons the mode and the rate are those of the last legal command for this head of each kind, or as before, and it was reset and identified itself exactly as often as told to |
| Commands.ObeyedAllHolds | firmware/app_head/src/main.c:424-493 | after a window that heard the command and no other for this head it has taken effect; a window without another one keeps it |
| Commands.OthersUnmoved | firmware/app_head/src/main.c:424-493 | a window with no command for a head leaves it as it was, whatever commands for others it heard |
| Commands.HeadSettings.constructor | firmware/app_head/src/main.c:73-76 | the head boots in quaternion mode at 208 Hz |
| Commands.HeadSettings.SetRate | firmware/app_head/src/main.c:399-418 | the search loop sets the nearest rate and its divider |
| Commands.HeadSettings.HandleBeacon | firmware/app_head/src/main.c:424-493 | one beacon is obeyed as specified |
| Presence.Control.constructor | firmware/app_head/src/main.c:551-582 | the head boots active and streaming |
| Presence.Control.Drain | firmware/app_head/src/main.c:596-602 | the drain loop hands every queued beacon to the handler in order and empties the queue |
| Presence.Control.Cycle | firmware/app_head/src/main.c:586-622 | one round listens, drains and decides the power state as specified; streaming runs exactly while active |
| Presence.HeardAre | firmware/app_head/src/radio.c:184-225 | the beacons a window hears are consecutive, and exactly those that fall in it |
| Presence.OneOrTwo | firmware/app_head/src/radio.c:184-225 | with period plus jitter within the window no window holds more than two beacons of a dongle, and none holds fewer than one once the dongle beacons |
| Presence.FourDonglesFit | firmware/app_head/src/radio.c:25-58 | with up to four dongles in range the eight-entry queue hands the control loop every beacon its window heard, one or two of each dongle; with any number it is not empty if one of them beacons |
| Presence.DeliveredAre | firmware/app_head/src/main.c:596-602 | on every run the queue is empty between rounds, so a round delivers the first eight beacons of its own window |
| Presence.PresenceSafe | firmware/app_head/src/main.c:586-625 | as long as in every window at least one dongle beacons, however many are in range and whichever they are, an active head stays active |
| Presence.SilentIff | firmware/app_head/src/main.c:606-622 | with no beacons the head is active exactly as long as less than 15 s have passed since it last heard one |
| Presence.StandbyOnTime | firmware/app_head/src/main.c:606-622 | it leaves no earlier than 15 s and no later than 15 s plus one cycle after the last heard window |
| Presence.StandbyReached | firmware/app_head/src/main.c:586-622 | fourteen silent windows always bring it to standby, fifteen if the radio fails to listen in some |
| Presence.RecoversInOneCycle | firmware/app_head/src/main.c:586-622 | after a dongle begins to beacon the head is active again within one standby cycle, whoever else is in range |
| Presence.DongleCarries | firmware/app_dongle/src/radio.c:132-154 | if a command is not replaced within thirty beacons, each of the thirty carries it; if it never is, every beacon from then on carries it or none |
| Presence.WindowCarries | firmware/app_head/src/radio.c:184-225 | a window that opens after acceptance and closes within the thirty beacons delivers the command, and no other for this head, among up to three other dongles that do not command it |
| Presence.TwoWindowsHear | firmware/app_head/src/radio.c:184-225 | the first two windows that open after the command was accepted both deliver it and no other for this head |
| Presence.Converges | firmware/app_head/src/main.c:424-493 | a command not replaced for its thirty beacons takes effect on the addressed head in each of the first two windows that open after its acceptance, among up to three other dongles, and holds until a window hears another command for that head; a head with another id does not change |
| Presence.NominalTiming | firmware/common/radio/htk_radio.h:21-26 | a 100 ms period with 10 ms of jitter and 50 ms of overhead a stage meets what the theorems ask of timing |
| Presence.SettledForGood | firmware/app_head/src/main.c:586-622 | among dongles that only announce their presence, a command its dongle does not follow with another takes effect in each of the first two windows after its acceptance and holds for good, through failed windows, standby and the dongle leaving and coming back |
| Presence.LifeSettings | firmware/app_head/src/main.c:586-622 | over a head's whole life its settings are those of the beacons it was handed since boot, as Commands.SettingsHistory tells them |
| HeadRadio.QueueKeepsFirst | firmware/app_head/src/radio.c:44-58 | the queue a window leaves is what was queued before and the beacons heard, in order, as far as eight go; the queued counter counts exactly them |
| HeadRadio.WindowDelivers | firmware/app_head/src/radio.c:184-230 | a window that starts on an empty queue delivers the first eight beacons heard, hence all of them if there are no more, none if listening failed, and only beacons the control loop can handle |
| HeadRadio.DeafMeansSilent | firmware/app_head/src/radio.c:147-182 | once a window has left the radio in receive mode, the stack accepts nothing until a later window restores transmission, whatever is sent |
| HeadRadio.SendIff | firmware/app_head/src/radio.c:147-182 | after any run a payload is accepted exactly if it fits a packet, no window is open, the last window left the radio transmitting and the stack accepts it at once or after one flush; else nothing changes |
| HeadRadio.ModeIs | firmware/app_head/src/radio.c:184-225 | the mode is what the last window left, and the counters count the windows and the failed ones |
| HeadRadio.Radio.constructor | firmware/app_head/src/radio.c:137-145 | the radio starts transmitting if its configuration worked |
| HeadRadio.Radio.Receive | firmware/app_head/src/radio.c:44-58 | the receive loop filters, cuts, queues and counts as specified |
| HeadRadio.Radio.Listen | firmware/app_head/src/radio.c:184-225 | one window changes mode, queue and counters as specified, on every failure path |
| HeadRadio.Radio.Transmit | firmware/app_head/src/radio.c:147-182 | one send is accepted by the stack or dropped, with the verdict specified |
| HeadRadio.Radio.BeaconGet | firmware/app_head/src/radio.c:227-230 | the oldest beacon is taken, if there is one |
| Angles.WrapPi | host/libheadtracker/src/orientation.cpp:57-71 | the two loops take off exactly the specified whole turns |
| Angles.WrapRange | host/libheadtracker/src/orientation.cpp:57-71 | a wrapped angle lies within half a turn of zero, is congruent to its argument, and an angle in range, either end included, is kept |
| Angles.WrapUnique | host/libheadtracker/src/orientation.cpp:57-71 | nothing else is congruent and in range, except that half a turn has two names |
| Angles.WrapSame | host/libheadtracker/src/orientation.cpp:57-71 | congruent angles wrap to the same size, and to the same angle unless it is half a turn |
| Angles.SameDirection | host/libheadtracker/src/orientation.cpp:73-80 | two angles have the same cosine and sine exactly when they are congruent modulo a turn |
| Orientation.NormMultiplies | host/libheadtracker/src/orientation.cpp:8-16 | lengths of quaternions multiply |
| Orientation.Associative | host/libheadtracker/src/orientation.cpp:8-16 | quaternion multiplication is associative |
| Orientation.ConjugateProduct | host/libheadtracker/src/orientation.cpp:8-21 | conjugation reverses a product |
| Orientation.ConjugateInverts | host/libheadtracker/src/orientation.cpp:18-21 | a quaternion times its conjugate is its squared length, on either side |
| Orientation.NormalizedUnit | host/libheadtracker/src/orientation.cpp:23-40 | normalizing always yields a unit quaternion and leaves one alone |
| Orientation.GravityIsDown | host/libheadtracker/src/orientation.cpp:87-96 | for a unit pose gravity_body is world-down carried into the body's frame by conjugation |
| Orientation.GravityYawBlind | host/libheadtracker/src/orientation.cpp:87-96 | gravity_body does not change under any yaw applied on the world's side |
| Orientation.NormalizedYawBlind | host/libheadtracker/src/orientation.cpp:23-40 | not even through normalization, which commutes with such a yaw |
| Orientation.HeadingDirection | host/libheadtracker/src/orientation.cpp:73-80 | the heading angle points along the squared twist, so q and -q have one heading |
| Orientation.YawAdds | host/libheadtracker/src/orientation.cpp:73-80 | a yaw on the world's side adds its angle to the heading, modulo a turn |
| Orientation.YawQuatAngle | host/libheadtracker/src/orientation.cpp:82-85 | a yaw quaternion made from an angle has that angle as its heading |
| Orientation.ShortestArcCarries | host/libheadtracker/src/orientation.cpp:98-115 | the arc is a unit swing and carries its argument's direction straight down, unless that points up within the code's margin |
| Orientation.TargetLevels | host/libheadtracker/src/orientation.cpp:98-115 | taring with the conjugate of the arc from the gravity a pose sees makes the tared pose level |
| Orientation.Recenterer.constructor | host/libheadtracker/src/orientation.cpp:194-198 | a new reference passes poses through |
| Orientation.Recenterer.Boresight | host/libheadtracker/src/orientation.cpp:134-153 | tare and yaw are set as specified |
| Orientation.Recenterer.Recenter | host/libheadtracker/src/orientation.cpp:155-162 | the yaw is set as specified |
| Orientation.Recenterer.SetTilt | host/libheadtracker/src/orientation.cpp:164-177 | the tilt is replaced, the yaw re-anchored and the shift returned, as specified |
| Orientation.Recenterer.SetYawAngle | host/libheadtracker/src/orientation.cpp:184-187 | the yaw becomes the given angle's quaternion |
| Orientation.Recenterer.Apply | host/libheadtracker/src/orientation.cpp:189-192 | in a sound frame a unit pose comes out as a unit, its heading the yaw reference plus the tared pose's heading modulo a turn, its gravity the tared pose's |
| Orientation.Recenterer.Reset | host/libheadtracker/src/orientation.cpp:194-198 | back to pass-through |
| Orientation.StaysSound | host/libheadtracker/src/orientation.cpp:134-192 | every operation keeps a unit tare and a pure yaw |
| Orientation.AppliedExactly | host/libheadtracker/src/orientation.cpp:189-192 | in such a frame a unit pose needs no renormalization and stays a unit |
| Orientation.BoresightTares | host/libheadtracker/src/orientation.cpp:134-153 | the captured pose reads as the identity from then on |
| Orientation.BoresightSplits | host/libheadtracker/src/orientation.cpp:134-153 | the tare takes off all of the captured pose but its heading, and the yaw reference takes off exactly that |
| Orientation.RecentreZeroes | host/libheadtracker/src/orientation.cpp:155-162 | a recenter makes the heading of the corrected pose zero and leaves its gravity alone |
| Orientation.TiltMovesYaw | host/libheadtracker/src/orientation.cpp:164-177 | a new tilt takes from the yaw reference exactly what it adds to the tared heading |
| Orientation.TiltInvisible | host/libheadtracker/src/orientation.cpp:164-177 | for any unit tilt the output heading is unchanged if and only if the pose has a heading before and after, or neither time, or the heading it gains or loses is zero |
| Orientation.GimbalJumps | host/libheadtracker/src/orientation.cpp:47-52 | a concrete vertical pose at which the refinement moves the heading |
| Orientation.CoRotates | host/libheadtracker/src/stabilizer.cpp:253-259 | co-rotation keeps the accumulator's length and adds the shift to its angle |
| Orientation.CenteringUndisturbed | host/libheadtracker/src/stabilizer.cpp:253-259 | after set_tilt and co-rotation the centering error has its size, and its sign unless it is half a turn; the accumulator has its length; at every pose |
| Stabilizer.Stabilizer.constructor | host/libheadtracker/include/headtracker/stabilizer.hpp:123-171 | a new tracker is in the start state |
| Stabilizer.Stabilizer.Serve | host/libheadtracker/src/stabilizer.cpp:148-162 | requests are served in order, each on the frame the one before left |
| Stabilizer.Stabilizer.ReseedCenter | host/libheadtracker/src/stabilizer.cpp:71-75 | the mean restarts at the present heading of the tared pose |
| Stabilizer.Stabilizer.AutoLevel | host/libheadtracker/src/stabilizer.cpp:229-267 | one auto-level step does what is specified to frame, mean and average |
| Stabilizer.Stabilizer.AutoCenter | host/libheadtracker/src/stabilizer.cpp:269-294 | one auto-center step does what is specified to mean and yaw |
| Stabilizer.Stabilizer.Update | host/libheadtracker/src/stabilizer.cpp:101-315 | one update takes the whole state to the specified one; a sample that is not finite changes only a counter |
| Stabilizer.WearYawBlind | host/libheadtracker/src/stabilizer.cpp:164-204 | two runs with equal timestamps whose samples differ by an arbitrary yaw each, on trackers with different references, requests and taps, agree on the whole wear state forever |
| Stabilizer.LevelingInvisible | host/libheadtracker/src/stabilizer.cpp:229-267 | one auto-level step moves neither the output heading of a pose that has one before and after, nor the size of the centering error, nor the accumulator's length |
| Stabilizer.CenteringTurns | host/libheadtracker/src/stabilizer.cpp:276-294 | one auto-center step turns the output heading by at most its slew limit, and not at all when it is off |
| Stabilizer.StepHeading | host/libheadtracker/src/stabilizer.cpp:229-299 | a whole update, at a pose with a heading before and after, in any healthy state: whatever auto-level did, the output has the heading it has under the frame that was asked for, turned by an auto-center step within its slew limit, and exactly that heading with auto-center off |
| Stabilizer.AskedIs | host/libheadtracker/src/stabilizer.cpp:148-162 | what was asked: nothing leaves the frame alone, a recenter by request or by a tap leaves the heading zero and keeps the tilt, a boresight alone makes the pose the identity |
| Stabilizer.LevelStep | host/libheadtracker/src/stabilizer.cpp:229-267 | a whole update learns exactly on a worn, slow sample with auto-level on, mixing gravity in by time constant and interval; once ready, the tilt takes the limited step, never turning away from the tilt that levels the average and arriving there if the limit allows |
| Stabilizer.StepCloses | host/libheadtracker/src/stabilizer.cpp:51-67 | a limited step never turns away from its goal, and arrives if the limit allows |
| Stabilizer.CenterStep | host/libheadtracker/src/stabilizer.cpp:269-299 | a whole update: any request restarts the mean, time passed takes the present heading in, the yaw is brought nearer to the mean by the share the time is of the time constant or the slew limit, and the output is the pose in the frame that results |
| Stabilizer.CenteringCloses | host/libheadtracker/src/stabilizer.cpp:276-294 | where auto-center applies, the centering error shrinks by exactly that, and never grows |
| WearHistory.RunWorn | host/libheadtracker/src/stabilizer.cpp:164-204 | on every run the tracker is worn if and only if at some sample gravity had been alive without a jolt for the holding time, and since then there was neither a jolt of over 20 degrees nor a stillness of the other holding time, where deviation and mean square are told by the samples |
| WearHistory.WornIff | host/libheadtracker/src/stabilizer.cpp:173-204 | the same of the samples that time passed before |
| WearHistory.Timers | host/libheadtracker/src/stabilizer.cpp:177-204 | the two timers are the lengths of the present stretches |
| WearHistory.StableTime | host/libheadtracker/src/stabilizer.cpp:203 | the time worn is how long the tracker has been worn without a break |
| WearHistory.Averages | host/libheadtracker/src/stabilizer.cpp:164-184 | the reference is the running mean of gravity, and the other average that of the squared deviation |
| WearHistory.VecAngleIs | host/libheadtracker/src/stabilizer.cpp:22-37 | the angle between two vectors has the cosine of their scalar product and the sine of the length of their vector product, over their lengths |
| WearHistory.StillNotWorn | host/libheadtracker/src/stabilizer.cpp:164-204 | a unit on which gravity does not move is never taken for worn |
| TapHistory.RunTaps | host/libheadtracker/src/stabilizer.cpp:118-147 | on every run the tap counter counts exactly the rising edges of the flag with none counted less than the refractory time before, and a recenter is pending exactly while the last of them that was made on a tracker worn long enough waits for the head to slow down or its time to run out |
| TapHistory.RecenterIff | host/libheadtracker/src/stabilizer.cpp:214-227 | a sample recenters on account of a tap exactly if it ends that wait |
| Stabilizer.QuatStepUnit | host/libheadtracker/src/stabilizer.cpp:51-67 | the limited step toward a unit quaternion is one |
| Stabilizer.BlendInDisc | host/libheadtracker/src/stabilizer.cpp:269-275 | the weighted mean of a point of the unit disc and a direction stays in the disc |
| Stabilizer.StepHealthy | host/libheadtracker/src/stabilizer.cpp:101-315 | every update keeps a unit tare, a pure yaw and an accumulator no longer than one |
| Stabilizer.RunHealthy | host/libheadtracker/src/stabilizer.cpp:101-315 | so it is on every run from the start, whatever arrives |
| Fusion.StepDt | firmware/common/fusion/htk_fusion.cpp:252-261 | the gate interval always lies between half and four times the nominal one, across timestamp wrap |
| Fusion.Filter.constructor | firmware/common/fusion/htk_fusion.cpp:150-177 | the machine boots unlatched, with a reseed pending |
| Fusion.Filter.AcceptBias | firmware/common/fusion/htk_fusion.cpp:263-295 | hysteresis, latch and clamp act as specified |
| Fusion.Filter.UpdateGate | firmware/common/fusion/htk_fusion.cpp:338-365 | one sample takes the rest gate to the specified state |
| Fusion.Filter.HoldYaw | firmware/common/fusion/htk_fusion.cpp:367-385 | one sample takes the servo to the specified state |
| Fusion.Filter.Update | firmware/common/fusion/htk_fusion.cpp:194-417 | one sample takes the whole machine to the specified state and puts out the held quaternion |
| Fusion.Filter.Reset | firmware/common/fusion/htk_fusion.cpp:458-474 | a full reset, as specified |
| Fusion.Filter.Suspend | firmware/common/fusion/htk_fusion.cpp:476-481 | the filter's bias is saved |
| Fusion.Filter.Resume | firmware/common/fusion/htk_fusion.cpp:483-505 | only after a suspend: the saved bias returns to filter and clamp, the gate closes and a reseed is pending |
| Fusion.ClampNear | firmware/common/fusion/htk_fusion.cpp:276-295 | the accepted bias is at most the slew limit, in Euclidean distance, away from the one before |
| Fusion.ClampExact | firmware/common/fusion/htk_fusion.cpp:276-295 | an estimate within the slew limit of the last accepted bias is accepted as it is; one farther off is followed along the line by exactly the limit |
| Fusion.AcceptedIs | firmware/common/fusion/htk_fusion.cpp:263-295 | one sample leaves the whole estimate in the filter before convergence and within the limit, and the nearest point the limit allows otherwise |
| Fusion.ConstantFollowed | firmware/common/fusion/htk_fusion.cpp:263-295 | a constant estimate is followed at the slew limit, and is the accepted bias once the limit over the gate time reaches its distance |
| Fusion.ConvergedIff | firmware/common/fusion/htk_fusion.cpp:179-275 | on every run the reported convergence holds if and only if since the last reset some uncertainty fell below 0.15 deg/s and none after it exceeded 0.25, and the clamp is on exactly from the first such sample |
| Fusion.SuspendRestores | firmware/common/fusion/htk_fusion.cpp:476-505 | whatever is sampled in between, a resume puts back the bias of the suspend in filter and clamp and closes the gate; a second one does nothing |
| Fusion.ResetForgets | firmware/common/fusion/htk_fusion.cpp:458-474 | from a reset on, the machine says for ever what one just booted says, given the clock and whether it is suspended |
| Fusion.GoodIff | firmware/common/fusion/htk_fusion.cpp:297-337 | a sample is good exactly unless, after the filter's bias is taken off, it turns at 0.5 deg/s or more, or at 0.3 about the vertical, or the estimator sees motion |
| Fusion.MotionEndsRest | firmware/common/fusion/htk_fusion.cpp:338-365 | three samples in a row that are not good end rest, whatever came before |
| Fusion.IntervalTrue | firmware/common/fusion/htk_fusion.cpp:252-261 | across timestamp wrap the gate interval is the true one whenever that lies between half and four times the nominal one, and the nominal one otherwise |
| Fusion.NearTriangle | firmware/common/fusion/htk_fusion.cpp:276-281 | distances add: the triangle inequality, from Cauchy-Schwarz |
| Fusion.NearDistance | firmware/common/fusion/htk_fusion.cpp:276-281 | the squared form used is the distance the code computes |
| Fusion.BiasCreeps | firmware/common/fusion/htk_fusion.cpp:263-295 | once converged, for any estimator and any order of samples, suspends and resumes without a reset, the accepted bias, and whatever a resume would restore, moves at most 0.01 deg/s per second of gate time away from where it was, and it is the filter's own |
| Fusion.SinceConvergence | firmware/common/fusion/htk_fusion.cpp:263-295 | on every run from boot, from any sample that finds or leaves the machine converged, the first convergence included, until a reset, or a resume if the sample was taken while suspended: the Euclidean distance of the accepted bias from what it was there is within that limit |
| Fusion.ConvergedHere | firmware/common/fusion/htk_fusion.cpp:269-295 | a sample that leaves the machine converged leaves the accepted bias in the filter |
| Fusion.OpenGate | firmware/common/fusion/htk_fusion.cpp:338-365 | while the gate is open its timer counts exactly the good time of a quiet stretch that reaches up to now, and less than two seconds of it |
| Fusion.ArmsOnlyAfter | firmware/common/fusion/htk_fusion.cpp:348-365 | it arms only on a good sample that completes two seconds of good time in a stretch with no reseed, no accelerometer deviation on a good sample and no three violations in a row |
| Fusion.ArmsWhenever | firmware/common/fusion/htk_fusion.cpp:348-365 | and it always arms then |
| Fusion.DropsOnThird | firmware/common/fusion/htk_fusion.cpp:348-353 | without a reseed an armed gate drops exactly on the third violation in a row, the sample before the three being good |
| Fusion.RestIff | firmware/common/fusion/htk_fusion.cpp:338-365 | the gate is armed if and only if such a stretch was completed and since then there was neither a reseed nor a third violation in a row |
| Fusion.CountBounds | firmware/common/fusion/htk_fusion.cpp:254-260 | the clamped intervals bound good time by the number of good samples, both ways |
| Fusion.SamplesNeeded | firmware/common/fusion/htk_fusion.cpp:254-260 | arming takes at least 2/(4 nominal) good samples, and fewer than 2/(0.5 nominal) before the last |
| Fusion.RunGate | firmware/common/fusion/htk_fusion.cpp:338-365 | on any run from boot the machine's gate is the gate of its samples, unless a reset or a resume has just closed it |
| Fusion.RestIsEarned | firmware/common/fusion/htk_fusion.cpp:338-365 | whenever the machine reports rest, on any run, it was earned that way |
| Fusion.HeldStep | firmware/common/fusion/htk_fusion.cpp:370-385 | a resting sample whose drift its slew allows leaves the output heading where the reference is |
| Fusion.RestHoldsHeading | firmware/common/fusion/htk_fusion.cpp:367-385 | so it is through a whole rest period |
| Fusion.HoldCreeps | firmware/common/fusion/htk_fusion.cpp:374-385 | on every run, whatever the headings, the hold moves by its corrections modulo a turn, these add up to at most 0.1 deg/s of rest time, and without rest it does not move |
| Fusion.ServoCloses | firmware/common/fusion/htk_fusion.cpp:374-385 | a resting sample brings the output nearer to where it is held by exactly what the slew allows, or all the way |
| Fusion.HoldReturns | firmware/common/fusion/htk_fusion.cpp:367-385 | so over a rest: with the estimate's heading standing still the output's distance shrinks at 0.1 deg/s until it is nothing |
| Fusion.RunServo | firmware/common/fusion/htk_fusion.cpp:367-385 | the machine's servo is the servo of its samples, resets aside |
| Fusion.HeadingHeld | firmware/common/fusion/htk_fusion.cpp:367-385 | the whole machine: after a free sample, as long as every sample rests with a drift its slew allows, the output heading is congruent to what it was there |
| Fusion.SentHeadingHeld | firmware/common/fusion/htk_fusion.cpp:367-416 | what the host sees of it: each quaternion sent in such a rest period has, modulo a turn, the heading of the one sent for the free sample, wherever both ends of the link define a heading, and the gravity of its own estimate |
| Fusion.OutputHeading | firmware/common/fusion/htk_fusion.cpp:387-416 | the quaternion sent on has heading hold plus estimate and the estimate's gravity, wherever both ends of the link define a heading |
| VqfFilter.FilterStep | firmware/common/fusion/vqf/vqf.cpp:829-838 | one difference-equation step updates its two delays in place and nothing else |
| VqfFilter.ClearSums | firmware/common/fusion/vqf/vqf.cpp:848-853 | the first sample zeroes count and sums |
| VqfFilter.Average | firmware/common/fusion/vqf/vqf.cpp:847-858 | one start-up sample enters the sums and puts their mean out, even when input and output are one array |
| VqfFilter.SeedDelays | firmware/common/fusion/vqf/vqf.cpp:859-863 | the means become the delays of the steady state, over the sums' cells |
| VqfFilter.RunDelays | firmware/common/fusion/vqf/vqf.cpp:867-869 | every component takes one filter step |
| VqfFilter.FilterVec | firmware/common/fusion/vqf/vqf.cpp:840-870 | one call takes the array from phase to phase as specified, with the specified outputs |
| VqfFilter.AveragesWhile | firmware/common/fusion/vqf/vqf.cpp:847-866 | the filter averages exactly until its samples have lasted tau, always at least once, holding their number and exact sums |
| VqfFilter.StartsOnMeans | firmware/common/fusion/vqf/vqf.cpp:847-858 | each start-up output is the exact mean of all samples so far |
| VqfFilter.SteadyStep | firmware/common/fusion/vqf/vqf.cpp:810-838 | from the steady state of x a running step puts out x; the next one does if and only if the gain is one or x is zero |
| VqfFilter.ConstantForever | firmware/common/fusion/vqf/vqf.cpp:840-870 | with unit gain a constant input comes out as that constant from the first sample on, straight through the change of phase |
| VqfFilter.CoeffsHaveUnitGain | firmware/common/fusion/vqf/vqf.cpp:780-808 | every coefficient set, the passthrough included, has unit gain |
| VqfFilter.DifferenceEquation | firmware/common/fusion/vqf/vqf.cpp:830-838 | successive outputs of the running filter satisfy the difference equation of its coefficients |
| VqfFilter.ButterworthResponse | firmware/common/fusion/vqf/vqf.cpp:780-808 | at every frequency the computed coefficients have the power gain c^4/(c^4 + t^4), one half at the cut-off, with a double zero at Nyquist; beyond the limit they pass everything |

## Left out

- Operating-system and driver code: serial ports, Zephyr, ESB and USB setup, GPIO, I2C, LEDs and
  the IMU reset are calls into code that is not part of this model.
- `client.cpp` runs the reader thread between transport and parser; `commands.cpp` checks a target
  id and fills a command payload for the codec; `htmon` prints what it receives; `htgen` writes
  test frames; `sim.c` plays made-up trackers. None of them is part of this model.
- The receive interrupt's partial puts (usb_io.c:167-177) and the dispatch of radio packets by
  type and length (app_dongle/src/radio.c:213-268): the splitter is modelled on the bytes it gets.
- The Zephyr ring buffer is modelled as an array ring of its declared capacity with whole puts and
  gets, which is how the transmit side uses it; input buffers the code only reads are sequences.
- Transmit liveness: the code disables the interrupt after releasing the lock (usb_io.c:185-188), so
  that turns keep coming is not claimed; UsbPipe.Drains says what they bring about.
- Corruption of COBS code bytes, and bursts that reach from payload into CRC: the CRC is stored low
  byte first, so no general rejection is claimed for either.
- C++ memory orders and the wrap of the seqlock counter after 2^32 half-publishes.
- Statistics and diagnostics counters are unbounded, and so is the run of consecutive violations in
  the rest gate, whose 32-bit wrap would need 2^32 bad samples in a row.
- Float rounding, float overflow and Euler angle extraction.
- The rest of the estimator: its Kalman update and magnetometer path, its adaptation of filter
  state to new coefficients, and the coarse zero-rate offset captured at boot (htk_fusion.cpp:
  197-243), which the model takes as already subtracted.
- `htk_fusion_set_sample_rate` and `Stabilizer::configure`: interval and configuration are fixed for
  a run.
- The fields of the published status other than the output pose; publication itself is `Seqlock`.
- Auto-level's motion gate uses the full rotation rate (stabilizer.cpp:206-227), so yaw-blindness is
  proved of wear detection only.
- Convergence-time claims of the averaging filters on the host.
- Presence.Converges: the two windows it speaks of are lossless and at most four dongles are in
  range in them, as losses and a fuller queue can drop every repeat.
- Fusion.SinceConvergence: from a sample taken while suspended it speaks up to the resume only.
  That puts the saved bias back, which may lie farther off; Fusion.BiasCreeps adds that distance.
- Stabilizer.CenterStep: asks for a centering constant of at least half the longest interval, 0.05 s.
  With a smaller one an uncapped step overshoots and the error may grow.
- WearHistory.RunWorn: asks for a non-negative averaging window; a negative one has no mean square.
- Stabilizer.StepHeading: asks for a non-negative averaging time constant and slew limit.
- Stabilizer.RunHealthy: asks for a non-negative averaging time constant; a negative one makes the
  mean's weight leave [0, 1].
- Orientation.CenteringUndisturbed: says nothing of a zero accumulator, whose angle is undefined.
- Orientation.ShortestArcCarries: within the code's margin of straight up it says only that the arc
  is a unit swing; there the code's fixed half-turn about X is only nearly right.
- Stabilizer.Stabilizer.AutoCenter: with a zero centering constant and a zero error the source's
  step is 0/0, and its yaw is no number from then on; the model does not step. With another error
  both step by the cap. Likewise a negative averaging constant that cancels the interval divides
  by zero in the source and gives no weight to the new value in the model.
- HeadRadio.DeafMeansSilent: speaks of what the stack accepts. Of that the stack discards a
  backlog when its FIFO is full (firmware/app_head/src/radio.c:172-177), and what it has accepted
  before a window may still be on its way out.
- Fusion.OutputHeading: the two sides use different tests for an undefined heading; where only one
  of them calls it undefined nothing is claimed.
