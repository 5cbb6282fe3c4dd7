/** The unit of every wire format here: an eight-bit byte, and small facts about
    byte sequences shared by the codec, the USB pipe and the parser. */
module Wire {

  // uint8_t, as the number it holds.
  type byte = x: int | 0 <= x < 256

  datatype Option<+T> = None | Some(value: T)

  /** A block between two delimiters: no byte of it is zero. */
  predicate ZeroFree(s: seq<byte>) {
    forall i :: 0 <= i < |s| ==> s[i] != 0
  }

  /** Concatenation of the parts, in order. */
  function Concat<T>(parts: seq<seq<T>>): (r: seq<T>) {
    if parts == [] then [] else parts[0] + Concat(parts[1..])
  }

  lemma {:induction false} ConcatAppend<T>(parts: seq<seq<T>>, more: seq<seq<T>>)
    ensures Concat(parts + more) == Concat(parts) + Concat(more)
  {
    if parts == [] {
      assert parts + more == more;
    } else {
      calc {
        Concat(parts + more);
        { assert (parts + more)[1..] == parts[1..] + more; }
        parts[0] + Concat(parts[1..] + more);
        { ConcatAppend(parts[1..], more); }
        parts[0] + (Concat(parts[1..]) + Concat(more));
        Concat(parts) + Concat(more);
      }
    }
  }

  lemma ConcatOne<T>(part: seq<T>)
    ensures Concat([part]) == part
  {
    assert [part][1..] == [];
    assert part + [] == part;
  }
}
