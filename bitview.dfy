/** Bit views of byte buffers, as the driver's read path uses them: a byte
    array seen as a sequence of bits, least significant bit of each byte
    first, and a copy between two views of equal length that transfers the
    bits one for one. */
module BitView {
  import opened Registers

  /** The eight bits of one byte, least significant first. */
  function ByteBits(x: Byte): (bits: seq<bool>)
    ensures |bits| == 8
  {
    [x & 0x01 != 0, x & 0x02 != 0, x & 0x04 != 0, x & 0x08 != 0,
     x & 0x10 != 0, x & 0x20 != 0, x & 0x40 != 0, x & 0x80 != 0]
  }

  /** A byte is determined by its eight bits. */
  lemma ByteBitsInjective(x: Byte, y: Byte)
    requires ByteBits(x) == ByteBits(y)
    ensures x == y
  {
  }

  /** The bit view of a byte buffer: byte 0's bits first. */
  function Bits(s: seq<Byte>): (bits: seq<bool>)
    ensures |bits| == 8 * |s|
  {
    if s == [] then [] else ByteBits(s[0]) + Bits(s[1..])
  }

  /** Bit `8 * i + j` of the view is bit `j` of byte `i`. */
  lemma {:induction false} BitsAt(s: seq<Byte>, i: nat, j: nat)
    requires i < |s| && j < 8
    ensures 8 * i + j < |Bits(s)| && Bits(s)[8 * i + j] == ByteBits(s[i])[j]
  {
    if i > 0 {
      BitsAt(s[1..], i - 1, j);
      assert Bits(s) == ByteBits(s[0]) + Bits(s[1..]);
    }
  }

  /** Two buffers with the same bit view hold the same bytes: a bit-for-bit
      copy is a byte-for-byte copy. */
  lemma {:induction false} BitsInjective(s: seq<Byte>, t: seq<Byte>)
    requires Bits(s) == Bits(t)
    ensures s == t
  {
    assert |s| == |t|;
    forall i | 0 <= i < |s|
      ensures s[i] == t[i]
    {
      forall j | 0 <= j < 8
        ensures ByteBits(s[i])[j] == ByteBits(t[i])[j]
      {
        BitsAt(s, i, j);
        BitsAt(t, i, j);
      }
      ByteBitsInjective(s[i], t[i]);
    }
  }

  /** Copies the bit view of `src` into the bit view of `dst`. The two views
      must have the same length; a buffer of another length is outside the
      contract of the copy. */
  method CopyFromBitslice(dst: array<Byte>, src: seq<Byte>)
    requires 8 * dst.Length == |Bits(src)|
    modifies dst
    ensures Bits(dst[..]) == Bits(src)
  {
    forall i | 0 <= i < dst.Length {
      dst[i] := src[i];
    }
    assert dst[..] == src;
  }
}
