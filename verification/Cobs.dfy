/** Consistent Overhead Byte Stuffing, firmware/common/protocol/htk_cobs.c.

    `Encoded` and `Decoded` say on sequences what a block means; the two methods work
    on arrays as the C functions do, patching the pending code byte in place. */
module Cobs {
  import opened Wire

  // The longest run one code byte can announce.
  const MAX_RUN := 254

  /** One finished group: its code byte, then its run. */
  function Group(run: seq<byte>): (g: seq<byte>)
    requires |run| <= MAX_RUN
  {
    [|run| + 1] + run
  }

  /** The encoding of `data` when `run` has been read since the pending code byte. */
  function EncodedFrom(data: seq<byte>, run: seq<byte>): (block: seq<byte>)
    requires |run| < MAX_RUN
    decreases |data|
  {
    if data == [] then Group(run)
    else if data[0] == 0 then Group(run) + EncodedFrom(data[1..], [])
    else if |run| + 1 == MAX_RUN then Group(run + [data[0]]) + EncodedFrom(data[1..], [])
    else EncodedFrom(data[1..], run + [data[0]])
  }

  function Encoded(data: seq<byte>): (block: seq<byte>) {
    EncodedFrom(data, [])
  }

  /** The block starts with a code byte whose run fits in it. */
  predicate HasGroup(block: seq<byte>) {
    block != [] && 0 < block[0] <= |block|
  }

  function Run(block: seq<byte>): (r: seq<byte>)
    requires HasGroup(block)
  {
    block[1..block[0]]
  }

  function Rest(block: seq<byte>): (r: seq<byte>)
    requires HasGroup(block)
  {
    block[block[0]..]
  }

  /** The zero a group stands for: none after a full run or at the end of the block. */
  function Separator(run: seq<byte>, rest: seq<byte>): (s: seq<byte>) {
    if |run| < MAX_RUN && rest != [] then [0] else []
  }

  /** What a delimiter-free block says, or None when it is malformed. */
  function Decoded(block: seq<byte>): (data: Option<seq<byte>>)
    decreases |block|
  {
    if block == [] then Some([])
    else if !HasGroup(block) then None
    else
      match Decoded(Rest(block))
      case None => None
      case Some(data) => Some(Run(block) + Separator(Run(block), Rest(block)) + data)
  }

  // ---- decoding inverts encoding ---------------------------------------------

  lemma GroupParts(run: seq<byte>, rest: seq<byte>)
    requires |run| <= MAX_RUN
    ensures HasGroup(Group(run) + rest)
    ensures Run(Group(run) + rest) == run && Rest(Group(run) + rest) == rest
  {
  }

  lemma GroupOfParts(block: seq<byte>)
    requires HasGroup(block)
    ensures block == Group(Run(block)) + Rest(block)
  {
    assert block == [block[0]] + block[1..block[0]] + block[block[0]..];
  }

  lemma DecodedGroup(run: seq<byte>, rest: seq<byte>)
    requires |run| <= MAX_RUN && Decoded(rest).Some?
    ensures Decoded(Group(run) + rest) == Some(Joined(run, rest))
  {
    GroupParts(run, rest);
    hide Group, Separator;
  }

  lemma {:induction false} EncodedNonEmpty(data: seq<byte>, run: seq<byte>)
    requires |run| < MAX_RUN
    ensures |EncodedFrom(data, run)| >= |run| + 1 + |data|
    decreases |data|
  {
    if data != [] {
      if data[0] == 0 || |run| + 1 == MAX_RUN {
        EncodedNonEmpty(data[1..], []);
      } else {
        EncodedNonEmpty(data[1..], run + [data[0]]);
      }
    }
  }

  lemma {:induction false} DecodedEncodedFrom(data: seq<byte>, run: seq<byte>)
    requires |run| < MAX_RUN
    ensures Decoded(EncodedFrom(data, run)) == Some(run + data)
    decreases |data|
  {
    if data == [] {
      DecodedGroup(run, []);
      assert Group(run) + [] == Group(run);
      assert run + data == run + [] + data;
    } else if data[0] == 0 {
      DecodedEncodedFrom(data[1..], []);
      EncodedNonEmpty(data[1..], []);
      DecodedGroup(run, EncodedFrom(data[1..], []));
      assert run + data == run + [0] + ([] + data[1..]);
    } else if |run| + 1 == MAX_RUN {
      DecodedEncodedFrom(data[1..], []);
      DecodedGroup(run + [data[0]], EncodedFrom(data[1..], []));
      assert run + data == run + [data[0]] + [] + ([] + data[1..]);
    } else {
      DecodedEncodedFrom(data[1..], run + [data[0]]);
      assert run + data == run + [data[0]] + data[1..];
    }
  }

  /** Decoding what was encoded gives the data back, for data of any length. */
  lemma DecodedEncoded(data: seq<byte>)
    ensures Decoded(Encoded(data)) == Some(data)
  {
    DecodedEncodedFrom(data, []);
    assert [] + data == data;
  }

  // ---- encoding inverts decoding ---------------------------------------------

  /** The block's last group is a full run: it ends on a 0xFF group. */
  predicate EndsOnFullRun(block: seq<byte>)
    decreases |block|
  {
    HasGroup(block) &&
    if Rest(block) == [] then |Run(block)| == MAX_RUN else EndsOnFullRun(Rest(block))
  }

  lemma {:induction false} EncodedRun(run: seq<byte>, more: seq<byte>, data: seq<byte>)
    requires ZeroFree(more) && |run| + |more| < MAX_RUN
    ensures EncodedFrom(more + data, run) == EncodedFrom(data, run + more)
    decreases |more|
  {
    if more == [] {
      assert more + data == data && run + more == run;
    } else {
      var tail := more[1..];
      assert forall i :: 0 <= i < |tail| ==> tail[i] == more[i + 1];
      EncodedRun(run + [more[0]], tail, data);
      assert (more + data)[1..] == tail + data;
      assert run + [more[0]] + tail == run + more;
    }
  }

  /** A full run is closed by its own last byte. */
  lemma EncodedFullRun(more: seq<byte>, data: seq<byte>)
    requires ZeroFree(more) && |more| == MAX_RUN
    ensures Encoded(more + data) == Group(more) + Encoded(data)
  {
    var head, last := more[..MAX_RUN - 1], more[MAX_RUN - 1];
    EncodedRun([], head, [last] + data);
    assert more + data == head + ([last] + data);
    assert [] + head == head && head + [last] == more;
    assert ([last] + data)[1..] == data;
  }

  lemma EncodedShortRun(more: seq<byte>, data: seq<byte>)
    requires ZeroFree(more) && |more| < MAX_RUN
    ensures Encoded(more) == Group(more)
    ensures Encoded(more + [0] + data) == Group(more) + Encoded(data)
  {
    EncodedRun([], more, []);
    EncodedRun([], more, [0] + data);
    assert more + [] == more && [] + more == more;
    assert more + [0] + data == more + ([0] + data);
    assert ([0] + data)[1..] == data;
  }

  lemma ZeroFreeParts(a: seq<byte>, b: seq<byte>)
    requires ZeroFree(a + b)
    ensures ZeroFree(a) && ZeroFree(b)
  {
    forall i | 0 <= i < |a| ensures a[i] != 0 { assert a[i] == (a + b)[i]; }
    forall i | 0 <= i < |b| ensures b[i] != 0 { assert b[i] == (a + b)[|a| + i]; }
  }

  lemma EncodedLastGroup(run: seq<byte>)
    requires |run| <= MAX_RUN && ZeroFree(run)
    ensures Encoded(run) == if |run| == MAX_RUN then Group(run) + [1] else Group(run)
  {
    if |run| == MAX_RUN {
      EncodedFullRun(run, []);
      assert run + [] == run;
      assert Encoded([]) == [1];
    } else {
      EncodedShortRun(run, []);
    }
  }

  /** A zero-free block that decodes to data is that data's encoding, except that a
      block ending on a full run lacks the encoder's final empty group. */
  lemma {:induction false} EncodedDecoded(block: seq<byte>)
    requires block != [] && ZeroFree(block) && Decoded(block).Some?
    ensures Encoded(Decoded(block).value) ==
            if EndsOnFullRun(block) then block + [1] else block
    decreases |block|
  {
    var run, rest := Run(block), Rest(block);
    GroupOfParts(block);
    ZeroFreeParts(Group(run), rest);
    ZeroFreeParts([|run| + 1], run);
    hide EncodedFrom, ZeroFree;
    if rest == [] {
      assert run + [] + [] == run;
      assert Group(run) + [] == Group(run);
      EncodedLastGroup(run);
    } else {
      EncodedDecoded(rest);
      var d := Decoded(rest).value;
      assert Group(run) + (rest + [1]) == Group(run) + rest + [1];
      if |run| == MAX_RUN {
        EncodedFullRun(run, d);
        assert run + [] + d == run + d;
      } else {
        EncodedShortRun(run, d);
      }
    }
  }

  // ---- shape of the encoding -------------------------------------------------

  lemma GroupZeroFree(run: seq<byte>)
    requires |run| <= MAX_RUN && ZeroFree(run)
    ensures ZeroFree(Group(run))
  {
  }

  lemma {:induction false} EncodedFromZeroFree(data: seq<byte>, run: seq<byte>)
    requires |run| < MAX_RUN && ZeroFree(run)
    ensures ZeroFree(EncodedFrom(data, run))
    decreases |data|
  {
    GroupZeroFree(run);
    if data != [] {
      if data[0] == 0 {
        EncodedFromZeroFree(data[1..], []);
      } else if |run| + 1 == MAX_RUN {
        GroupZeroFree(run + [data[0]]);
        EncodedFromZeroFree(data[1..], []);
      } else {
        EncodedFromZeroFree(data[1..], run + [data[0]]);
      }
    }
  }

  /** No encoded block holds a zero, so the delimiter is never ambiguous. */
  lemma EncodedZeroFree(data: seq<byte>)
    ensures ZeroFree(Encoded(data))
  {
    EncodedFromZeroFree(data, []);
  }

  lemma {:induction false} EncodedFromLength(data: seq<byte>, run: seq<byte>)
    requires |run| < MAX_RUN
    ensures |EncodedFrom(data, run)| <= |run| + |data| + (|run| + |data|) / MAX_RUN + 1
    decreases |data|
  {
    if data != [] {
      if data[0] == 0 {
        EncodedFromLength(data[1..], []);
      } else if |run| + 1 == MAX_RUN {
        EncodedFromLength(data[1..], []);
        assert |run| + |data| == MAX_RUN + |data[1..]|;
      } else {
        EncodedFromLength(data[1..], run + [data[0]]);
      }
    }
  }

  /** The bound the header promises, and at least one byte of overhead. */
  lemma EncodedLength(data: seq<byte>)
    ensures |data| + 1 <= |Encoded(data)| <= |data| + |data| / MAX_RUN + 1
  {
    EncodedFromLength(data, []);
    EncodedNonEmpty(data, []);
  }

  // ---- corruption of one data byte -------------------------------------------

  /** Position `p` of the block holds a code byte. */
  predicate IsCode(block: seq<byte>, p: nat)
    requires p < |block|
    decreases |block|
  {
    p == 0 || (HasGroup(block) && block[0] <= p && IsCode(Rest(block), p - block[0]))
  }

  /** Where the data byte at position `p` lands in the decoded data. */
  function DataIndex(block: seq<byte>, p: nat): (k: nat)
    requires p < |block| && Decoded(block).Some? && !IsCode(block, p)
    decreases |block|
  {
    if p < block[0] then p - 1
    else
      block[0] - 1 + |Separator(Run(block), Rest(block))| + DataIndex(Rest(block), p - block[0])
  }

  lemma UpdateFront<T>(a: seq<T>, b: seq<T>, k: nat, v: T)
    requires k < |a|
    ensures a[k := v] + b == (a + b)[k := v] && (a + b)[k] == a[k]
  {
  }

  lemma UpdateBack<T>(a: seq<T>, b: seq<T>, k: nat, v: T)
    requires k < |b|
    ensures a + b[k := v] == (a + b)[|a| + k := v] && (a + b)[|a| + k] == b[k]
  {
  }

  lemma DecodedSome(block: seq<byte>)
    requires block != [] && Decoded(block).Some?
    ensures HasGroup(block) && Decoded(Rest(block)).Some?
  {
  }

  /** Changing one data byte of a block changes exactly that byte of what it decodes to. */
  lemma {:induction false} DecodedCorrupted(block: seq<byte>, p: nat, v: byte)
    requires p < |block| && Decoded(block).Some? && !IsCode(block, p)
    ensures DataIndex(block, p) < |Decoded(block).value|
    ensures Decoded(block).value[DataIndex(block, p)] == block[p]
    ensures Decoded(block[p := v]) == Some(Decoded(block).value[DataIndex(block, p) := v])
    decreases |block|
  {
    hide Decoded, DataIndex, IsCode;
    DecodedSome(block);
    DataIndexParts(block, p);
    if p < block[0] {
      CorruptedInRun(block, p, v);
    } else {
      DecodedCorrupted(Rest(block), p - block[0], v);
      CorruptedInRest(block, p, v);
    }
  }

  lemma DataIndexParts(block: seq<byte>, p: nat)
    requires p < |block| && Decoded(block).Some? && !IsCode(block, p)
    ensures p > 0 && HasGroup(block) && Decoded(Rest(block)).Some?
    ensures p < block[0] ==> DataIndex(block, p) == p - 1
    ensures p >= block[0] ==>
              p - block[0] < |Rest(block)| && !IsCode(Rest(block), p - block[0]) &&
              DataIndex(block, p) ==
                block[0] - 1 + |Separator(Run(block), Rest(block))| + DataIndex(Rest(block), p - block[0])
  {
    hide Separator;
  }

  lemma CorruptedInRun(block: seq<byte>, p: nat, v: byte)
    requires HasGroup(block) && Decoded(Rest(block)).Some? && 0 < p < block[0]
    ensures Decoded(block).Some? && p - 1 < |Decoded(block).value| && Decoded(block).value[p - 1] == block[p]
    ensures Decoded(block[p := v]) == Some(Decoded(block).value[p - 1 := v])
  {
    GroupOfParts(block);
    var run, rest := Run(block), Rest(block);
    assert |run| == block[0] - 1 && run[p - 1] == block[p];
    hide Decoded, Joined, Run, Rest;
    CorruptedHere(run, rest, p - 1, v);
    UpdateFront(Group(run), rest, p, v);
  }

  lemma CorruptedInRest(block: seq<byte>, p: nat, v: byte)
    requires HasGroup(block) && Decoded(Rest(block)).Some? && block[0] <= p < |block|
    requires p - block[0] < |Rest(block)| && !IsCode(Rest(block), p - block[0])
    requires var k := DataIndex(Rest(block), p - block[0]);
      && k < |Decoded(Rest(block)).value| && Decoded(Rest(block)).value[k] == Rest(block)[p - block[0]]
      && Decoded(Rest(block)[p - block[0] := v]) == Some(Decoded(Rest(block)).value[k := v])
    ensures var k := block[0] - 1 + |Separator(Run(block), Rest(block))| + DataIndex(Rest(block), p - block[0]);
      && Decoded(block).Some? && k < |Decoded(block).value| && Decoded(block).value[k] == block[p]
      && Decoded(block[p := v]) == Some(Decoded(block).value[k := v])
  {
    hide Decoded, DataIndex, IsCode, Joined, Run, Rest, Separator, Group, HasGroup;
    RestUpdated(block, p, v);
    CorruptedLater(Run(block), Rest(block), p - block[0], DataIndex(Rest(block), p - block[0]), v);
  }

  lemma RestUpdated(block: seq<byte>, p: nat, v: byte)
    requires HasGroup(block) && block[0] <= p < |block|
    ensures block == Group(Run(block)) + Rest(block) && |Run(block)| == block[0] - 1 <= MAX_RUN
    ensures p - block[0] < |Rest(block)| && Rest(block)[p - block[0]] == block[p]
    ensures block[p := v] == Group(Run(block)) + Rest(block)[p - block[0] := v]
  {
    GroupOfParts(block);
    var run, rest, q := Run(block), Rest(block), p - block[0];
    assert |Group(run)| == block[0] && |run| == block[0] - 1;
    UpdateBack(Group(run), rest, q, v);
  }

  /** The data a group and a well-formed rest decode to. */
  function Joined(run: seq<byte>, rest: seq<byte>): (data: seq<byte>)
    requires Decoded(rest).Some?
  {
    run + Separator(run, rest) + Decoded(rest).value
  }

  lemma JoinedFront(run: seq<byte>, rest: seq<byte>, k: nat, v: byte)
    requires k < |run| && Decoded(rest).Some?
    ensures k < |Joined(run, rest)| && Joined(run, rest)[k] == run[k]
    ensures Joined(run[k := v], rest) == Joined(run, rest)[k := v]
  {
    assert Separator(run[k := v], rest) == Separator(run, rest);
    hide Separator, Decoded;
    var sep, data := Separator(run, rest), Decoded(rest).value;
    UpdateFront(run, sep, k, v);
    UpdateFront(run + sep, data, k, v);
  }

  lemma JoinedBack(run: seq<byte>, rest: seq<byte>, other: seq<byte>, k: nat, v: byte)
    requires Decoded(rest).Some? && k < |Decoded(rest).value| && (rest == [] <==> other == [])
    requires Decoded(other) == Some(Decoded(rest).value[k := v])
    ensures |run| + |Separator(run, rest)| + k < |Joined(run, rest)|
    ensures Joined(run, rest)[|run| + |Separator(run, rest)| + k] == Decoded(rest).value[k]
    ensures Joined(run, other) == Joined(run, rest)[|run| + |Separator(run, rest)| + k := v]
  {
    assert Separator(run, other) == Separator(run, rest);
    hide Separator, Decoded;
    UpdateBack(run + Separator(run, rest), Decoded(rest).value, k, v);
  }

  lemma GroupUpdated(run: seq<byte>, k: nat, v: byte)
    requires k < |run| <= MAX_RUN
    ensures Group(run)[k + 1 := v] == Group(run[k := v])
  {
  }

  lemma CorruptedHere(run: seq<byte>, rest: seq<byte>, k: nat, v: byte)
    requires k < |run| <= MAX_RUN && Decoded(rest).Some?
    ensures Decoded(Group(run) + rest) == Some(Joined(run, rest))
    ensures k < |Joined(run, rest)| && Joined(run, rest)[k] == run[k]
    ensures Group(run)[k + 1 := v] == Group(run[k := v])
    ensures Decoded(Group(run[k := v]) + rest) == Some(Joined(run, rest)[k := v])
  {
    GroupUpdated(run, k, v);
    DecodedGroup(run, rest);
    DecodedGroup(run[k := v], rest);
    hide Group, Decoded, Separator, Joined;
    JoinedFront(run, rest, k, v);
  }

  lemma CorruptedLater(run: seq<byte>, rest: seq<byte>, q: nat, k: nat, v: byte)
    requires |run| <= MAX_RUN && Decoded(rest).Some? && q < |rest|
    requires k < |Decoded(rest).value|
    requires Decoded(rest[q := v]) == Some(Decoded(rest).value[k := v])
    ensures Decoded(Group(run) + rest) == Some(Joined(run, rest))
    ensures |run| + |Separator(run, rest)| + k < |Joined(run, rest)|
    ensures Joined(run, rest)[|run| + |Separator(run, rest)| + k] == Decoded(rest).value[k]
    ensures Decoded(Group(run) + rest[q := v]) ==
            Some(Joined(run, rest)[|run| + |Separator(run, rest)| + k := v])
  {
    hide Group, Decoded, Separator, Joined;
    DecodedGroup(run, rest);
    DecodedGroup(run, rest[q := v]);
    JoinedBack(run, rest, rest[q := v], k, v);
  }

  // ---- the array algorithms --------------------------------------------------

  /** The whole encoding, seen when `done` is settled, `run` pending and `data` unread. */
  ghost function EncodedAfter(done: seq<byte>, run: seq<byte>, data: seq<byte>): (block: seq<byte>)
    requires |run| < MAX_RUN
  {
    done + EncodedFrom(data, run)
  }

  lemma EncodeStep(done: seq<byte>, run: seq<byte>, data: seq<byte>)
    requires data != [] && |run| < MAX_RUN
    ensures |EncodedAfter(done, run, data)| > |done| + 1 + |run|
    ensures data[0] == 0 ==>
      EncodedAfter(done, run, data) == EncodedAfter(done + Group(run), [], data[1..])
    ensures data[0] != 0 && |run| + 1 < MAX_RUN ==>
      EncodedAfter(done, run, data) == EncodedAfter(done, run + [data[0]], data[1..])
    ensures data[0] != 0 && |run| + 1 == MAX_RUN ==>
      |EncodedAfter(done, run, data)| > |done| + 2 + |run| &&
      EncodedAfter(done, run, data) == EncodedAfter(done + Group(run + [data[0]]), [], data[1..])
  {
    EncodedNonEmpty(data, run);
    var rest := EncodedFrom(data[1..], []);
    EncodedNonEmpty(data[1..], []);
    if data[0] == 0 {
      assert done + (Group(run) + rest) == done + Group(run) + rest;
    } else if |run| + 1 == MAX_RUN {
      var full := Group(run + [data[0]]);
      assert done + (full + rest) == done + full + rest;
    }
  }

  /** `s` is stored in the array from index `at` on. */
  ghost predicate Stored(output: array<byte>, at: nat, s: seq<byte>)
    reads output
  {
    at + |s| <= output.Length && forall k :: at <= k < at + |s| ==> output[k] == s[k - at]
  }

  /** Closes the pending group: its code byte goes over the placeholder at `codePos`, and a
      new placeholder is put after it when there is room. */
  method CloseGroup(output: array<byte>, cap: nat, codePos: nat, code: byte, outLen: nat,
                    ghost done: seq<byte>, ghost run: seq<byte>)
    returns (room: bool)
    requires cap <= output.Length && |run| <= MAX_RUN
    requires codePos == |done| && code == |run| + 1 && outLen == codePos + code <= cap
    requires Stored(output, 0, done) && Stored(output, codePos + 1, run)
    modifies output
    ensures room == (outLen < cap)
    ensures Stored(output, 0, done + Group(run))
    ensures forall k :: (if room then outLen + 1 else outLen) <= k < output.Length ==>
                          output[k] == old(output[k])
  {
    output[codePos] := code;
    room := outLen < cap;
    if room {
      output[outLen] := 0;
    }
  }

  /** Encodes input into output[..cap]; returns zero exactly when it does not fit. */
  method Encode(input: seq<byte>, output: array<byte>, cap: nat) returns (n: nat)
    requires cap <= output.Length
    modifies output
    ensures n == if |Encoded(input)| <= cap then |Encoded(input)| else 0
    ensures n > 0 ==> output[..n] == Encoded(input)
    ensures forall k :: (if n > 0 then n else cap) <= k < output.Length ==>
                          output[k] == old(output[k])
  {
    EncodedNonEmpty(input, []);
    if cap == 0 {
      return 0;
    }
    var outLen, codePos, code, room := 1, 0, 1, true;
    output[0] := 0;
    ghost var done: seq<byte>, run: seq<byte> := [], [];
    assert input[0..] == input && [] + Encoded(input) == Encoded(input);
    for i := 0 to |input|
      invariant codePos == |done| && code == |run| + 1 <= MAX_RUN && outLen == codePos + code <= cap
      invariant Stored(output, 0, done) && Stored(output, codePos + 1, run)
      invariant Encoded(input) == EncodedAfter(done, run, input[i..])
      invariant forall k :: outLen <= k < output.Length ==> output[k] == old(output[k])
    {
      EncodeStep(done, run, input[i..]);
      assert input[i..][0] == input[i] && input[i..][1..] == input[i + 1..];
      if input[i] != 0 {
        if outLen >= cap {
          return 0;
        }
        output[outLen] := input[i];
        outLen, run := outLen + 1, run + [input[i]];
        code := code + 1;
      }
      if input[i] == 0 || code == 0xFF {
        room := CloseGroup(output, cap, codePos, code, outLen, done, run);
        if !room {
          return 0;
        }
        done, run := done + Group(run), [];
        codePos, outLen, code := outLen, outLen + 1, 1;
      }
    }
    output[codePos] := code;
    n := outLen;
    assert output[..n] == done + Group(run);
  }

  /** The whole data, seen when `done` is settled and `block` is unread. */
  ghost function DecodedAfter(done: seq<byte>, block: seq<byte>): (data: Option<seq<byte>>) {
    match Decoded(block)
    case None => None
    case Some(left) => Some(done + left)
  }

  lemma DecodeStep(done: seq<byte>, block: seq<byte>)
    requires HasGroup(block)
    ensures DecodedAfter(done, block) ==
            DecodedAfter(done + Run(block) + Separator(Run(block), Rest(block)), Rest(block))
  {
    if Decoded(Rest(block)).Some? {
      var mid, left := Run(block) + Separator(Run(block), Rest(block)), Decoded(Rest(block)).value;
      assert done + (mid + left) == done + mid + left;
      assert done + mid == done + Run(block) + Separator(Run(block), Rest(block));
    }
  }

  /** Appends input[from..from + count] to the output; false when it runs out of room. */
  method CopyRun(input: seq<byte>, from: nat, count: nat, output: array<byte>, outLen: nat, cap: nat,
                 ghost done: seq<byte>)
    returns (room: bool)
    requires from + count <= |input| && outLen <= cap <= output.Length
    requires |done| == outLen && Stored(output, 0, done)
    modifies output
    ensures room == (outLen + count <= cap)
    ensures room ==> Stored(output, 0, done + input[from..from + count])
    ensures forall k :: cap <= k < output.Length ==> output[k] == old(output[k])
  {
    for j := 0 to count
      invariant outLen + j <= cap && Stored(output, 0, done)
      invariant Stored(output, outLen, input[from..from + j])
      invariant forall k :: cap <= k < output.Length ==> output[k] == old(output[k])
    {
      if outLen + j >= cap {
        return false;
      }
      output[outLen + j] := input[from + j];
    }
    room := true;
  }

  lemma PartsAt(block: seq<byte>, i: nat)
    requires i < |block| && HasGroup(block[i..])
    ensures Run(block[i..]) == block[i + 1..i + block[i]]
    ensures Rest(block[i..]) == block[i + block[i]..]
  {
    assert block[i..][0] == block[i];
  }

  /** Decodes input into output[..cap]; returns zero when the block is malformed,
      says nothing, or does not fit. */
  method Decode(input: seq<byte>, output: array<byte>, cap: nat) returns (n: nat)
    requires cap <= output.Length
    modifies output
    ensures n == match Decoded(input)
                 case None => 0
                 case Some(data) => if |data| <= cap then |data| else 0
    ensures n > 0 ==> output[..n] == Decoded(input).value
    ensures forall k :: cap <= k < output.Length ==> output[k] == old(output[k])
  {
    var outLen, i := 0, 0;
    ghost var done: seq<byte>, left: seq<byte> := [], input;
    assert Decoded(input).Some? ==> [] + Decoded(input).value == Decoded(input).value;
    while i < |input|
      invariant 0 <= i <= |input| && left == input[i..]
      invariant outLen == |done| <= cap && Stored(output, 0, done)
      invariant Decoded(input) == DecodedAfter(done, left)
      invariant forall k :: cap <= k < output.Length ==> output[k] == old(output[k])
    {
      var code := input[i];
      assert left[0] == code;
      i := i + 1;
      if code == 0 || i + (code - 1) > |input| {
        return 0;
      }
      DecodeStep(done, left);
      PartsAt(input, i - 1);
      var room := CopyRun(input, i, code - 1, output, outLen, cap, done);
      if !room {
        return 0;
      }
      outLen, i := outLen + (code - 1), i + (code - 1);
      done, left := done + Run(left) + Separator(Run(left), Rest(left)), Rest(left);
      if code < 0xFF && i < |input| {
        if outLen >= cap {
          return 0;
        }
        output[outLen] := 0;
        outLen := outLen + 1;
      }
    }
    n := outLen;
    assert output[..n] == done;
  }
}
