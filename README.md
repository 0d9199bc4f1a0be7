# MyDriver register protocol, in Dafny

A model of a small SPI peripheral driver, `MyDriver`, and of its register map.
The driver owns an SPI device and a chip-enable pin. It reaches the chip only
through 3-byte register frames: a first byte for the address, then two
payload bytes. The register map declares two 16-bit registers:

- R0 is read-write at address 0, with reset bytes 0x70, 0x40 and the bool
  fields `foo` (bit 6), `bar` (bit 4), `reset` (bit 1) and `powerdown` (bit 0).
- R76 is read-only at address 76, with reset value 0 and the 11-bit field
  `rb_temp_sens` over bits 0..11.

The project has four modules:

- `Registers` (`registers.dfy`): the register map, and the generated
  accessors reduced to bit reads, bit writes and range reads on a 16-bit
  payload.
- `BitView` (`bitview.dfy`): the bit view of a byte buffer and the
  bit-for-bit copy that the read path uses.
- `Protocol` (`protocol.dfy`): the write and read frames, and the frame
  layout documented beside the driver. That layout has the read/write bit at
  23 and the payload in bits 15..0. The comment contradicts itself on the
  address: it labels it `REG_ADDR[7:0]`, eight bits, but only bits 22..16
  are left for it, and its header row skips bit 11. The model reads the
  address as the seven bits 22..16.
- `Driver` (`driver.dfy`): the `MyDriver` class. A ghost log records the
  calls it makes on the SPI device. What the device answers is a parameter
  of each operation: success, the bytes clocked in, or the device's error.

Byte mapping. Both registers declare little-endian byte order, so R0's
reset bytes 0x70, 0x40 are the payload 0x4070. The raw storage that the
driver indexes holds that payload high byte first: 0x40, 0x70. This is the
mapping under which the reset test's frames 0x00, 0x40, 0x22 and
0x00, 0x40, 0x20 are R0 writes built on the reset value. The model states it
as an assumption, in `Raw` and `FromLe`.

Write accessor. A register's write accessor starts from the register's
reset value and applies its closure's field assignments in order
(`Registers.Apply`, used by `Driver.MyDriver.WriteFields`). `reset`'s
closure sets `powerdown`; the commented-out pulse's closures are
`Registers.PulseWrites`.

Where the code and its test or its own layout comment disagree, the model
follows the code. Each disagreement is proved as a lemma:

- `reset` sends one write, the powerdown frame 0x00, 0x40, 0x71.
  - The reset test expects a two-write pulse instead.
  - The commented-out pulse in the driver produces exactly the frames the
    test expects (`Driver.ResetDiffersFromTest`).
- The read frame's first byte is `address & 0x80`, not `address | 0x80`.
  - For every 7-bit address that byte is 0.
  - So a read of R76 goes out addressed to register 0.
  - Under the documented layout, every read frame of a 7-bit address is a
    write to register 0
    (`Protocol.ReadFrameDropsAddress`, `Protocol.ReadFrameIsWriteToRegisterZero`,
    `Driver.ReadOfR76AddressesR0`).
- On success, `read_register` copies the whole 3-byte response into the
  caller's storage. It does not decode two payload bytes from it.
  - The copy requires both sides to hold the same number of bits.
  - Both declared registers are 16 bits wide, so a successful read of either
    is outside that contract (`Driver.RegisterReadsMismatchBuffer`).
  - `Driver.MyDriver.ReadRegister` therefore requires 3-byte storage when the
    transfer succeeds.

## Model

| member | source | states |
|---|---|---|
| Registers.BitOf | src/registers.rs:19-22 | a field's bit reads as 0 or 1 |
| Registers.Get | src/registers.rs:19-22 | a bool field read is its bit being non-zero; its meaning is pinned by `SetBit` and `SetBitKeeps` |
| Registers.SetBit | src/registers.rs:19-22 | after a bool field is written, reading it (bit not zero) gives back the value written; `SetBitKeeps` gives the other bits |
| Registers.SetBitKeeps | src/registers.rs:19-22 | writing a bool field leaves every other bit of the payload unchanged |
| Registers.SetBitOnlyThatBit | src/registers.rs:19-22 | a bool field write changes at most the field's own bit, stated over the whole payload |
| Registers.R0FieldsDistinct | src/registers.rs:19-22 | R0's foo, bar, reset and powerdown are four distinct bits of the 16-bit payload |
| Registers.Field | src/registers.rs:32 | a range read over lo..hi has no bit at or above the range width; `FieldBit` gives each of its bits |
| Registers.FieldBit | src/registers.rs:32 | a range read over lo..hi gives bit lo + k of the payload as its bit k, and zero above the range width |
| Registers.RbTempSens | src/registers.rs:32 | rb_temp_sens is below 2048 and equals the payload's low eleven bits |
| Registers.RbTempSensIgnoresHighBits | src/registers.rs:32 | rb_temp_sens is eleven bits wide; bits 11 to 15 of the payload do not affect it |
| Registers.FromLe | src/registers.rs:13-17 | the little-endian decoding puts byte 0 in the low half of the payload and byte 1 in the high half |
| Registers.ToLe | src/registers.rs:13-17 | the little-endian encoding is two bytes and decodes back to the payload |
| Registers.LeRoundTrip | src/registers.rs:13-17 | encoding a decoded pair of bytes gives the same bytes back |
| Registers.Raw | src/registers.rs:13-17 | raw storage is two bytes, the little-endian form reversed (high byte first) |
| Registers.FromRaw | src/registers.rs:13-17 | reading a two-byte raw storage gives the payload whose raw storage it is |
| Registers.RawRoundTrip | src/registers.rs:13-17 | reading the raw storage of a payload gives the payload back |
| Registers.RegisterDeclarations | src/registers.rs:10-30 | R0 is at address 0, 16 bits, read-write, with reset bytes 0x70, 0x40 (payload 0x4070, raw 0x40, 0x70); R76 is at address 76, 16 bits, read-only, with reset value 0 |
| Registers.RegistersFitFrame | src/registers.rs:14-28 | every declared register is 16 bits wide and its address fits the seven address bits below the read/write bit |
| Registers.Apply | src/registers.rs:10-23 | the payload a write accessor sends: its start value with the closure's assignments applied in order; `ApplyKeeps` and `ApplyLastWins` give its meaning |
| Registers.ApplyKeeps | src/registers.rs:10-23 | a bit that no assignment of the closure names keeps its starting value |
| Registers.ApplyLastWins | src/registers.rs:10-23 | each field reads as the value of the last assignment to it |
| Registers.PulseWrites | src/lib.rs:46-49 | the commented-out pulse closures assign foo = false, bar = false and reset, all bits of the payload |
| Registers.PulsePayload | src/lib.rs:46-49 | the pulse payload from the reset value reads foo false, bar false and reset as given |
| Registers.PulsePayloads | src/lib.rs:46-49 | the commented-out pulse writes from the reset value have payloads 0x4022 and 0x4020 (raw 0x40, 0x22 and 0x40, 0x20); foo and bar are clear, reset is set and then clear, and bit 5 of the reset value survives |
| Registers.PowerdownPayload | src/lib.rs:51 | the powerdown write from the reset value sets bit 0, giving payload 0x4071 with raw bytes 0x40, 0x71 |
| BitView.ByteBits | src/lib.rs:114 | a byte's bit view has eight bits |
| BitView.ByteBitsInjective | src/lib.rs:114 | two bytes with the same eight bits are equal |
| BitView.Bits | src/lib.rs:114 | a buffer's bit view is eight bits per byte |
| BitView.BitsAt | src/lib.rs:114 | bit 8i + j of a buffer's view is bit j of byte i |
| BitView.BitsInjective | src/lib.rs:114 | two buffers with the same bit view hold the same bytes |
| BitView.CopyFromBitslice | src/lib.rs:114 | copying between bit views of equal length leaves the destination with the source's bits |
| Protocol.WriteFrame | src/lib.rs:90 | the write command is three bytes |
| Protocol.ReadFrame | src/lib.rs:102-106 | the read command is three bytes |
| Protocol.FrameBits | src/lib.rs:68-71 | a 3-byte frame as 24 bits, first byte in bits 23..16, bit 23 first on the wire; used by the layout lemmas |
| Protocol.Layout | src/lib.rs:68-71 | the documented layout as an independent reference definition: read/write bit 23, 7-bit address in bits 22..16, payload in bits 15..0; the frame lemmas compare against it |
| Protocol.WriteFrameFollowsLayout | src/lib.rs:68-92 | for a 7-bit address, the write command is the documented write of the raw storage's payload to that address |
| Protocol.WriteFrameKeepsAddress | src/lib.rs:90 | the write command's top byte is the address unmodified, so an address of 0x80 or more sets the read bit |
| Protocol.ReadFrameDropsAddress | src/lib.rs:103 | the read command's first byte is 0 for every 7-bit address, never the address with the read bit set, and the same for all of them |
| Protocol.ReadFrameIsWriteToRegisterZero | src/lib.rs:68-106 | under the documented layout, a read command for any 7-bit address is a write to register 0 of the caller's bytes read low byte first, not a read of that address |
| Protocol.ReadFrameSwapsPayload | src/lib.rs:102-106 | the read command carries the caller's two raw bytes in the opposite order from the write command |
| Driver.WriteTraffic | src/lib.rs:90-92 | a register write is exactly one SPI write |
| Driver.ResetTraffic | src/lib.rs:51 | reset's traffic is the single frame 0x00, 0x40, 0x71 |
| Driver.PulseResetTraffic | src/lib.rs:46-49 | the commented-out pulse's traffic is the two frames 0x00, 0x40, 0x22 and 0x00, 0x40, 0x20 |
| Driver.TestResetTraffic | src/lib.rs:131-138 | the frames the reset test expects |
| Driver.MyDriver.constructor | src/lib.rs:34-39 | the driver holds the given SPI device and pin, is live, and has made no SPI call |
| Driver.MyDriver.New | src/lib.rs:34-39 | new always succeeds with a fresh live driver holding the given values, with no SPI traffic |
| Driver.MyDriver.Destroy | src/lib.rs:41-43 | destroy hands back exactly the held SPI device and pin, sends nothing, and ends the driver's life |
| Driver.MyDriver.WriteRegister | src/lib.rs:79-95 | exactly one SPI write of address, raw 0, raw 1 is logged; the result is Ok exactly when the write succeeds, else Err(Spi(e)) with the device's error |
| Driver.MyDriver.ReadRegister | src/lib.rs:97-117 | exactly one transfer of address & 0x80, raw 1, raw 0 is logged; on failure the result is Err(Spi(e)) and data is untouched; on success the result is Ok and data holds the received bytes |
| Driver.MyDriver.WriteFields | src/registers.rs:10-23 | a read-write register's write accessor sends, to the register's address, the raw storage of its reset value with the closure's assignments applied, with write_register's error result |
| Driver.MyDriver.Reset | src/lib.rs:45-57 | reset sends the single frame 0x00, 0x40, 0x71 (R0 at reset value with powerdown set) and returns the write's error, if any |
| Driver.NewThenDestroy | src/lib.rs:150-165 | a driver built with new and taken apart with destroy returns the very SPI device and pin it was given |
| Driver.ResetDiffersFromTest | src/lib.rs:129-145 | reset's traffic is one frame where the test expects two, and its frame differs from the first expected one; the commented-out pulse sends exactly the two expected frames |
| Driver.ReadOfR76AddressesR0 | src/lib.rs:103 | the read command for R76 carries R0's address |
| Driver.RegisterReadsMismatchBuffer | src/lib.rs:108-114 | for a 3-byte response, no declared register's storage has the response's bit length, which the copy requires |

## Left out

- The SPI and digital-pin interfaces and their generic error types. The SPI
  device is an opaque value. Each call's result is a parameter of the
  operation, and the calls made appear in a ghost log.
- The chip-enable pin is held and returned but never driven. The pin's error
  variant `Digital` is declared but never produced, as in the code.
- The debug printing in `write_register`: console output, with no effect on
  the frame.
- The internals of the register-declaration macro and of the bit-array
  storage, including accessor generation and the little-endian reordering.
  - The payload is a 16-bit value with the byte mapping stated above.
  - The bit view of a buffer takes each byte's least significant bit first.
    Any fixed bit order gives the same copy result.
- Driver.MyDriver.ReadRegister: requires 3-byte storage when the transfer
  succeeds. With any other length the copy's length check fails, and a
  failed length check is not a result of the operation.
- Driver.MyDriver.Destroy: consuming the driver is modelled by a ghost `live`
  flag that every other operation requires. Ownership is not modelled.
- The composed read accessors that the register declaration generates for R0
  and R76 are left out with the macro's internals: `read_register` into the
  register's 2-byte storage, followed by the field decode. That read's copy
  of the 3-byte response falls outside the copy's length contract
  (`Driver.RegisterReadsMismatchBuffer`). The field decode itself is
  modelled on the payload by `Registers.Get`, `Registers.Field` and
  `Registers.RbTempSens`.
- The mock test harness, apart from the frames its reset test expects.
- Temperature conversion and floating point: the code has none.
