/** The 3-byte register frames that the driver builds, and the frame layout
    documented beside the driver: read/write bit 23, the register address
    below it and the 16-bit payload in bits 15 to 0, with bit 23 the first
    bit on the wire. The comment labels the address `[7:0]`, eight bits, but
    leaves only bits 22 to 16 for it; the model reads the address as those
    seven bits. */
module Protocol {
  import opened Registers

  /** A 24-bit frame as it goes on the wire, bit 23 first. */
  type FrameWord = bv24

  /** The write command: the address byte as given, then raw bytes 0 and 1. */
  function WriteFrame(address: Byte, raw: seq<Byte>): (f: seq<Byte>)
    requires |raw| >= 2
    ensures |f| == 3
  {
    [address, raw[0], raw[1]]
  }

  /** The read command: the address byte masked with bit 7, then raw bytes 1
      and 0. */
  function ReadFrame(address: Byte, raw: seq<Byte>): (f: seq<Byte>)
    requires |raw| >= 2
    ensures |f| == 3
  {
    [address & 0x80, raw[1], raw[0]]
  }

  /** The 24 bits of a 3-byte frame, first byte most significant. */
  function FrameBits(f: seq<Byte>): (w: FrameWord)
    requires |f| == 3
  {
    ((f[0] as FrameWord) << 16) | ((f[1] as FrameWord) << 8) | f[2] as FrameWord
  }

  /** The documented layout: the read/write bit, a 7-bit address and the
      payload. */
  function Layout(read: bool, address: Byte, payload: Word): (w: FrameWord)
    requires address < 0x80
  {
    (if read then 0x80_0000 else 0) | ((address as FrameWord) << 16) | payload as FrameWord
  }

  /** A write of a payload held high byte first to a 7-bit address is
      exactly the documented write command for that address and payload. */
  lemma WriteFrameFollowsLayout(address: Byte, v: Word)
    requires address < 0x80
    ensures FrameBits(WriteFrame(address, Raw(v))) == Layout(false, address, v)
  {
  }

  /** The write command adds no read/write bit and clears none: the whole
      address byte leads the frame, so an address at or above 0x80 goes out
      with bit 23, the read bit, set. */
  lemma WriteFrameKeepsAddress(address: Byte, raw: seq<Byte>)
    requires |raw| >= 2
    ensures FrameBits(WriteFrame(address, raw)) >> 16 == address as FrameWord
    ensures (FrameBits(WriteFrame(address, raw)) >> 23 == 1) == (address >= 0x80)
  {
  }

  /** The read command keeps only bit 7 of the address. For every 7-bit
      address it leads with 0: not the address with the read bit set, and the
      same for every register. */
  lemma ReadFrameDropsAddress(address: Byte, raw: seq<Byte>)
    requires |raw| >= 2
    ensures ReadFrame(address, raw)[0] == if address < 0x80 then 0 else 0x80
    ensures address < 0x80 ==> ReadFrame(address, raw)[0] != address | 0x80
    ensures forall other: Byte :: address < 0x80 && other < 0x80 ==> ReadFrame(other, raw) == ReadFrame(address, raw)
  {
  }

  /** Under the documented layout every read command of a 7-bit address is a
      write command to register 0, whose payload is the caller's raw bytes
      read low byte first. */
  lemma ReadFrameIsWriteToRegisterZero(address: Byte, raw: seq<Byte>)
    requires address < 0x80 && |raw| == 2
    ensures FrameBits(ReadFrame(address, raw)) == Layout(false, R0.address, FromLe(raw))
    ensures FrameBits(ReadFrame(address, raw)) != Layout(true, address, FromLe(raw))
  {
    var f := ReadFrame(address, raw);
    assert f == [0, raw[1], raw[0]];
    assert FrameBits(f) == ((raw[1] as FrameWord) << 8) | raw[0] as FrameWord;
  }

  /** The read command carries the caller's two raw bytes in the opposite
      order from the write command. */
  lemma ReadFrameSwapsPayload(address: Byte, raw: seq<Byte>)
    requires |raw| >= 2
    ensures ReadFrame(address, raw)[1] == WriteFrame(address, raw)[2]
    ensures ReadFrame(address, raw)[2] == WriteFrame(address, raw)[1]
  {
  }
}
