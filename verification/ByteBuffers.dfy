/**
 * The part of `java.nio.ByteBuffer` the CBW builder uses: a fixed-capacity
 * zero-filled backing array, a position that each relative `put` advances,
 * and little-endian `putInt`.
 */
module ByteBuffers {
  import opened Bytes

  /** s with the bytes from position p onwards overwritten by b. */
  function Overwrite(s: seq<byte>, p: nat, b: seq<byte>): (r: seq<byte>)
    requires p + |b| <= |s|
    ensures |r| == |s|
  {
    s[..p] + b + s[p + |b|..]
  }

  /** Overwriting leaves the bytes before p alone and puts b right after them. */
  lemma OverwritePrefix(s: seq<byte>, p: nat, b: seq<byte>)
    requires p + |b| <= |s|
    ensures Overwrite(s, p, b)[..p + |b|] == s[..p] + b
  {
  }

  /** Writing one more byte of b extends the overwritten stretch by one. */
  lemma OverwriteStep(s: seq<byte>, p: nat, b: seq<byte>, i: nat)
    requires p + |b| <= |s| && i < |b|
    ensures Overwrite(s, p, b[..i])[p + i := b[i]] == Overwrite(s, p, b[..i + 1])
  {
    var l, r := Overwrite(s, p, b[..i])[p + i := b[i]], Overwrite(s, p, b[..i + 1]);
    forall k | 0 <= k < |s| ensures l[k] == r[k] {
    }
  }

  class ByteBuffer {
    const data: array<byte>
    var position: nat

    ghost predicate Valid()
      reads this
    {
      position <= data.Length
    }

    /** `ByteBuffer.allocate(capacity)`: all zero, positioned at 0. */
    constructor Allocate(capacity: nat)
      ensures Valid() && fresh(data)
      ensures position == 0 && data[..] == seq(capacity, _ => 0)
    {
      data := new byte[capacity](_ => 0);
      position := 0;
    }

    /** Writes b at the position and advances the position past it. */
    method PutBytes(b: seq<byte>)
      requires Valid() && position + |b| <= data.Length
      modifies this, data
      ensures Valid() && position == old(position) + |b|
      ensures data[..] == Overwrite(old(data[..]), old(position), b)
      ensures data[..position] == old(data[..position]) + b
    {
      var i := 0;
      while i < |b|
        invariant 0 <= i <= |b| && position == old(position)
        invariant data[..] == Overwrite(old(data[..]), position, b[..i])
      {
        OverwriteStep(old(data[..]), position, b, i);
        data[position + i] := b[i];
        i := i + 1;
      }
      assert b[..i] == b;
      OverwritePrefix(old(data[..]), position, b);
      position := position + |b|;
    }

    /** Relative `put(b)`: one byte. */
    method Put(b: byte)
      requires Valid() && position < data.Length
      modifies this, data
      ensures Valid() && position == old(position) + 1
      ensures data[..] == Overwrite(old(data[..]), old(position), [b])
      ensures data[..position] == old(data[..position]) + [b]
    {
      PutBytes([b]);
    }

    /** Relative `putInt(x)` in little-endian order: the four bytes of x's 32-bit pattern. */
    method PutInt(x: int)
      requires Valid() && position + 4 <= data.Length
      modifies this, data
      ensures Valid() && position == old(position) + 4
      ensures data[..] == Overwrite(old(data[..]), old(position), LittleEndian(Int32Bits(x), 4))
      ensures data[..position] == old(data[..position]) + LittleEndian(Int32Bits(x), 4)
    {
      PutBytes(LittleEndian(Int32Bits(x), 4));
    }

    /** Relative bulk `put(src)`: the whole of another array. */
    method PutAll(src: array<byte>)
      requires Valid() && position + src.Length <= data.Length
      modifies this, data
      ensures Valid() && position == old(position) + src.Length
      ensures data[..] == Overwrite(old(data[..]), old(position), old(src[..]))
      ensures data[..position] == old(data[..position]) + old(src[..])
    {
      PutBytes(src[..]);
    }
  }
}
