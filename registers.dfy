/** The device's register map: two 16-bit registers declared by address,
    access mode, reset value and named bitfields, with the accessors that the
    declaration generates reduced to bit reads and writes on a 16-bit payload.

    A payload is a `Word` whose bit 0 is the least significant bit; the field
    positions of the declaration count from there. Both registers declare
    little-endian byte order: their reset bytes are the payload's little-endian
    form (`FromLe`). The raw storage that the driver puts on the wire is the
    payload high byte first (`Raw`), which is the byte mapping the reset test
    pins down (see `PulsePayloads`). */
module Registers {

  /** One byte of a frame or of a register's raw storage. */
  type Byte = bv8

  /** A register's 16-bit payload. */
  type Word = bv16

  /** The single-bit mask of bit `i`. */
  function Mask(i: Word): (m: Word)
    requires i < 16
  {
    1 << i
  }

  /** Bit `i` of a payload, as the value 0 or 1. */
  function BitOf(v: Word, i: Word): (x: Word)
    requires i < 16
    ensures x <= 1
  {
    (v >> i) & 1
  }

  /** A bool field read: the field's bit is not zero. */
  predicate Get(v: Word, i: Word)
    requires i < 16
  {
    BitOf(v, i) != 0
  }

  /** A bool field write: bit `i` takes the value `b`, and the field reads
      back as the value written. */
  function SetBit(v: Word, i: Word, b: bool): (r: Word)
    requires i < 16
    ensures Get(r, i) == b
  {
    if b then v | Mask(i) else v & !Mask(i)
  }

  /** A bool field write changes no bit of the payload but its own. */
  lemma SetBitKeeps(v: Word, i: Word, j: Word, b: bool)
    requires i < 16 && j < 16 && i != j
    ensures BitOf(SetBit(v, i, b), j) == BitOf(v, j)
  {
  }

  /** The same, as one equation over the whole payload. */
  lemma SetBitOnlyThatBit(v: Word, i: Word, b: bool)
    requires i < 16
    ensures SetBit(v, i, b) & !Mask(i) == v & !Mask(i)
  {
    if b {
      OrClear(v, Mask(i));
    } else {
      AndClear(v, Mask(i));
    }
  }

  /** Setting the bits of `m` and then clearing them is clearing them. */
  lemma OrClear(v: Word, m: Word)
    ensures (v | m) & !m == v & !m
  {
  }

  /** Clearing the bits of `m` twice is clearing them once. */
  lemma AndClear(v: Word, m: Word)
    ensures (v & !m) & !m == v & !m
  {
  }

  /** An unsigned field read over the half-open bit range `lo..hi`: the
      payload shifted down by `lo`, cut to `hi - lo` bits. */
  function Field(v: Word, lo: Word, hi: Word): (r: Word)
    requires lo <= hi <= 16
    ensures r >> (hi - lo) == 0
  {
    (v >> lo) & ((1 << (hi - lo)) - 1)
  }

  /** Bit `k` of a range read is bit `lo + k` of the payload inside the
      range, and 0 above it. */
  lemma FieldBit(v: Word, lo: Word, hi: Word, k: Word)
    requires lo <= hi <= 16 && k < 16
    ensures k < hi - lo ==> BitOf(Field(v, lo, hi), k) == BitOf(v, lo + k)
    ensures k >= hi - lo ==> BitOf(Field(v, lo, hi), k) == 0
  {
  }

  /** The payload whose little-endian form is the two bytes `b`. */
  function FromLe(b: seq<Byte>): (v: Word)
    requires |b| == 2
    ensures v & 0xFF == b[0] as Word && v >> 8 == b[1] as Word
  {
    ((b[1] as Word) << 8) | b[0] as Word
  }

  /** The little-endian form of a payload: low byte first. */
  function ToLe(v: Word): (b: seq<Byte>)
    ensures |b| == 2 && FromLe(b) == v
  {
    [(v & 0xFF) as Byte, (v >> 8) as Byte]
  }

  lemma LeRoundTrip(b: seq<Byte>)
    requires |b| == 2
    ensures ToLe(FromLe(b)) == b
  {
  }

  /** The raw storage of a payload, as the driver indexes it: high byte first. */
  function Raw(v: Word): (raw: seq<Byte>)
    ensures |raw| == 2 && raw == [ToLe(v)[1], ToLe(v)[0]]
  {
    [(v >> 8) as Byte, (v & 0xFF) as Byte]
  }

  /** The payload held by a two-byte raw storage. */
  function FromRaw(raw: seq<Byte>): (v: Word)
    requires |raw| == 2
    ensures Raw(v) == raw
  {
    ((raw[0] as Word) << 8) | raw[1] as Word
  }

  lemma RawRoundTrip(v: Word)
    ensures FromRaw(Raw(v)) == v
  {
  }

  /** Access modes of the declaration: `R` and `RW`. */
  datatype Access = ReadOnly | ReadWrite

  /** A register declaration. Both registers declare little-endian byte order,
      which `reset` already reflects (it is decoded with `FromLe`). */
  datatype Register = Register(address: Byte, sizeBits: nat, access: Access, reset: Word)

  /** Register 0: read-write, reset bytes 0x70, 0x40. */
  const R0: Register := Register(0, 16, ReadWrite, FromLe([0x70, 0x40]))

  /** Register 76: read-only, reset value 0. */
  const R76: Register := Register(76, 16, ReadOnly, 0)

  /** The register map, in declaration order. */
  const REGISTERS: seq<Register> := [R0, R76]

  /** Bit positions of R0's bool fields. */
  const FOO: Word := 6
  const BAR: Word := 4
  const RESET: Word := 1
  const POWERDOWN: Word := 0

  /** The half-open bit range of R76's unsigned field `rb_temp_sens`. */
  const RB_TEMP_SENS_LO: Word := 0
  const RB_TEMP_SENS_HI: Word := 11

  /** Only a read-write register has a write accessor. */
  predicate Writable(r: Register)
  {
    r.access == ReadWrite
  }

  /** R76's `rb_temp_sens` field: the payload's low eleven bits and nothing
      above them. */
  function RbTempSens(v: Word): (t: Word)
    ensures t < 0x800
    ensures t & 0x7FF == v & 0x7FF
  {
    Field(v, RB_TEMP_SENS_LO, RB_TEMP_SENS_HI)
  }

  /** The declarations as written: addresses, sizes, access modes and reset
      values, with R0's reset bytes read as the payload 0x4070. */
  lemma RegisterDeclarations()
    ensures R0.address == 0 && R0.sizeBits == 16 && Writable(R0)
    ensures ToLe(R0.reset) == [0x70, 0x40] && R0.reset == 0x4070
    ensures Raw(R0.reset) == [0x40, 0x70]
    ensures R76.address == 76 && R76.sizeBits == 16 && !Writable(R76) && R76.reset == 0
  {
  }

  /** Every register's payload is two bytes, and every address fits the
      seven address bits below the read/write bit of a command byte. */
  lemma RegistersFitFrame()
    ensures forall r :: r in REGISTERS ==> r.sizeBits == 16 && r.address < 0x80 && r.address & 0x80 == 0
  {
  }

  /** R0's four bool fields sit on four distinct bits of the payload, so
      by `SetBitKeeps` writing any one of them leaves the other three as they
      were. */
  lemma R0FieldsDistinct()
    ensures FOO < 16 && BAR < 16 && RESET < 16 && POWERDOWN < 16
    ensures FOO != BAR && FOO != RESET && FOO != POWERDOWN
    ensures BAR != RESET && BAR != POWERDOWN && RESET != POWERDOWN
  {
  }

  /** `rb_temp_sens` is eleven bits wide: a change confined to bits 11 to 15
      of the payload leaves it as it was. */
  lemma RbTempSensIgnoresHighBits(v: Word, h: Word)
    ensures RB_TEMP_SENS_HI - RB_TEMP_SENS_LO == 11
    ensures RbTempSens(v ^ (h << 11)) == RbTempSens(v)
  {
  }

  /** One assignment made by a write accessor's closure: the bool field at
      `bit` takes `value`. */
  datatype FieldWrite = FieldWrite(bit: Word, value: bool)

  /** Every assignment names a bit of the 16-bit payload. */
  predicate ValidWrites(ws: seq<FieldWrite>)
  {
    forall k :: 0 <= k < |ws| ==> ws[k].bit < 16
  }

  /** The payload that a write accessor sends: it starts from `v` (the
      register's reset value) and applies the closure's assignments in
      order. */
  function Apply(v: Word, ws: seq<FieldWrite>): (r: Word)
    requires ValidWrites(ws)
    decreases |ws|
  {
    if ws == [] then v else Apply(SetBit(v, ws[0].bit, ws[0].value), ws[1..])
  }

  /** A bit that no assignment names keeps its starting value. */
  lemma {:induction false} ApplyKeeps(v: Word, ws: seq<FieldWrite>, j: Word)
    requires ValidWrites(ws) && j < 16
    requires forall k :: 0 <= k < |ws| ==> ws[k].bit != j
    ensures BitOf(Apply(v, ws), j) == BitOf(v, j)
    decreases |ws|
  {
    if ws != [] {
      SetBitKeeps(v, ws[0].bit, j, ws[0].value);
      ApplyKeeps(SetBit(v, ws[0].bit, ws[0].value), ws[1..], j);
    }
  }

  /** A field reads as the value of the last assignment to it. */
  lemma {:induction false} ApplyLastWins(v: Word, ws: seq<FieldWrite>, k: nat)
    requires ValidWrites(ws) && k < |ws|
    requires forall m :: k < m < |ws| ==> ws[m].bit != ws[k].bit
    ensures Get(Apply(v, ws), ws[k].bit) == ws[k].value
    decreases k
  {
    var v' := SetBit(v, ws[0].bit, ws[0].value);
    if k == 0 {
      ApplyKeeps(v', ws[1..], ws[0].bit);
    } else {
      ApplyLastWins(v', ws[1..], k - 1);
    }
  }

  /** One assignment. */
  lemma ApplyOne(v: Word, a: FieldWrite)
    requires a.bit < 16
    ensures Apply(v, [a]) == SetBit(v, a.bit, a.value)
  {
    assert [a][1..] == [];
  }

  /** Three assignments, one after the other. */
  lemma ApplyThree(v: Word, a: FieldWrite, b: FieldWrite, c: FieldWrite)
    requires a.bit < 16 && b.bit < 16 && c.bit < 16
    ensures Apply(v, [a, b, c]) == SetBit(SetBit(SetBit(v, a.bit, a.value), b.bit, b.value), c.bit, c.value)
  {
    var v1 := SetBit(v, a.bit, a.value);
    var v2 := SetBit(v1, b.bit, b.value);
    assert [a, b, c][1..] == [b, c];
    assert Apply(v, [a, b, c]) == Apply(v1, [b, c]);
    assert [b, c][1..] == [c];
    assert Apply(v1, [b, c]) == Apply(v2, [c]);
    ApplyOne(v2, c);
  }

  /** The closure of the reset pulse's writes: foo = false, bar = false,
      reset = `reset`. */
  function PulseWrites(reset: bool): (ws: seq<FieldWrite>)
    ensures ValidWrites(ws)
  {
    [FieldWrite(FOO, false), FieldWrite(BAR, false), FieldWrite(RESET, reset)]
  }

  /** The payload of an R0 write that starts from the reset value and sets
      foo = false, bar = false and reset = `reset`. */
  function PulsePayload(reset: bool): (v: Word)
    ensures !Get(v, FOO) && !Get(v, BAR) && Get(v, RESET) == reset
  {
    ApplyLastWins(R0.reset, PulseWrites(reset), 0);
    ApplyLastWins(R0.reset, PulseWrites(reset), 1);
    ApplyLastWins(R0.reset, PulseWrites(reset), 2);
    Apply(R0.reset, PulseWrites(reset))
  }

  /** The two pulse payloads are 0x4022 and 0x4020: bit 5 and bit 14 of the
      reset value survive, and high byte first they are the bytes the reset
      test expects after the address. */
  lemma PulsePayloads()
    ensures PulsePayload(true) == 0x4022 && Raw(PulsePayload(true)) == [0x40, 0x22]
    ensures PulsePayload(false) == 0x4020 && Raw(PulsePayload(false)) == [0x40, 0x20]
    ensures BitOf(PulsePayload(true), 5) == 1 && BitOf(PulsePayload(false), 5) == 1
  {
    ApplyThree(R0.reset, FieldWrite(FOO, false), FieldWrite(BAR, false), FieldWrite(RESET, true));
    ApplyThree(R0.reset, FieldWrite(FOO, false), FieldWrite(BAR, false), FieldWrite(RESET, false));
  }

  /** The payload of an R0 write that starts from the reset value and sets
      powerdown = true: 0x4071. */
  function PowerdownPayload(): (v: Word)
    ensures Get(v, POWERDOWN) && v == R0.reset | 1 && Raw(v) == [0x40, 0x71]
  {
    ApplyOne(R0.reset, FieldWrite(POWERDOWN, true));
    Apply(R0.reset, [FieldWrite(POWERDOWN, true)])
  }
}
