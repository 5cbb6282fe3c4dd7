/** The fixed-size byte ring the USB pipe stores its frames in. */
module Ring {
  import opened Wire

  /** The array index of the i-th byte of a ring that starts at `start`. */
  function Slot(start: nat, i: nat, size: nat): (k: nat)
    requires start < size && i <= size
    ensures k < size
  {
    if start + i < size then start + i else start + i - size
  }

  class ByteRing {
    const data: array<byte>
    var start: nat
    var len: nat
    ghost var contents: seq<byte>

    ghost predicate Valid()
      reads this, data
    {
      && start < data.Length && len == |contents| <= data.Length
      && forall i :: 0 <= i < len ==> data[Slot(start, i, data.Length)] == contents[i]
    }

    constructor (size: nat)
      requires size > 0
      ensures Valid() && contents == [] && data.Length == size && fresh(data)
    {
      data := new byte[size];
      start, len, contents := 0, 0, [];
    }

    function Space(): (n: int)
      reads this
    {
      data.Length - len
    }

    method PutByte(b: byte)
      requires Valid() && len < data.Length
      modifies this, data
      ensures Valid() && contents == old(contents) + [b]
    {
      data[Slot(start, len, data.Length)] := b;
      len, contents := len + 1, contents + [b];
    }

    /** Appends all the bytes; the caller has checked that they fit. */
    method Put(bytes: seq<byte>)
      requires Valid() && len + |bytes| <= data.Length
      modifies this, data
      ensures Valid() && contents == old(contents) + bytes
    {
      for i := 0 to |bytes|
        invariant Valid() && contents == old(contents) + bytes[..i]
      {
        PutByte(bytes[i]);
        assert bytes[..i + 1] == bytes[..i] + [bytes[i]];
      }
      assert bytes[..|bytes|] == bytes;
    }

    method GetByte() returns (b: byte)
      requires Valid() && len > 0
      modifies this
      ensures Valid() && old(contents) == [b] + contents
    {
      b := data[start];
      assert forall i :: 0 <= i < len - 1 ==>
        Slot(Slot(start, 1, data.Length), i, data.Length) == Slot(start, i + 1, data.Length);
      assert contents == [b] + contents[1..];
      start, len, contents := Slot(start, 1, data.Length), len - 1, contents[1..];
    }

    /** Takes the first `n` bytes out into output[..n]. */
    method Get(n: nat, output: array<byte>)
      requires Valid() && n <= len && n <= output.Length && output != data
      modifies this, output
      ensures Valid() && old(contents) == output[..n] + contents
    {
      for i := 0 to n
        invariant Valid() && n - i <= len
        invariant old(contents) == output[..i] + contents
      {
        ghost var before := output[..i];
        var b := GetByte();
        output[i] := b;
        assert output[..i + 1] == before + [b];
      }
    }
  }
}
