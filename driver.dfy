/** The driver object: it owns an SPI device and a chip-enable pin, and it
    talks to the chip only through 3-byte register frames. The SPI device is
    seen through what it is asked to do: every call appends one transaction
    to the ghost `log`, and the outcome of the call (success, the bytes
    clocked in, or the device's error) is a parameter of the operation. */
module Driver {
  import opened Registers
  import opened Protocol
  import opened BitView

  datatype Result<T, E> = Ok(value: T) | Err(error: E)

  /** The driver's error: an error of the SPI device or of the pin. */
  datatype DriverError<SpiError, DigitalError> = Spi(spiError: SpiError) | Digital(digitalError: DigitalError)

  /** What the SPI device answers to a write. */
  datatype WriteOutcome<SpiError> = Written | WriteFailed(error: SpiError)

  /** What the SPI device answers to a full-duplex transfer: the bytes clocked
      in, or an error. */
  datatype TransferOutcome<SpiError> = Received(rx: seq<Byte>) | TransferFailed(error: SpiError)

  /** One call on the SPI device, with the bytes sent. */
  datatype Transaction = Write(frame: seq<Byte>) | Transfer(frame: seq<Byte>)

  /** The traffic of one register write. */
  function WriteTraffic(address: Byte, v: Word): (t: seq<Transaction>)
    ensures |t| == 1 && t[0].Write?
  {
    [Write(WriteFrame(address, Raw(v)))]
  }

  /** The traffic of `reset` as written: one register-0 write whose payload is
      the reset value with `powerdown` set. */
  function ResetTraffic(): (t: seq<Transaction>)
    ensures t == [Write([0x00, 0x40, 0x71])]
  {
    RegisterDeclarations();
    WriteTraffic(R0.address, PowerdownPayload())
  }

  /** The traffic of the reset pulse that the reset test expects. */
  function TestResetTraffic(): (t: seq<Transaction>)
  {
    [Write([0x00, 0x40, 0x22]), Write([0x00, 0x40, 0x20])]
  }

  /** The traffic of the reset pulse that the driver leaves commented out: two
      register-0 writes from the reset value, with foo and bar cleared and
      reset first set, then cleared. */
  function PulseResetTraffic(): (t: seq<Transaction>)
    ensures t == [Write([0x00, 0x40, 0x22]), Write([0x00, 0x40, 0x20])]
  {
    RegisterDeclarations();
    PulsePayloads();
    WriteTraffic(R0.address, PulsePayload(true)) + WriteTraffic(R0.address, PulsePayload(false))
  }

  class MyDriver<Spi, Pin, SpiError, DigitalError> {
    /** The SPI device. */
    var spi: Spi
    /** The chip-enable pin; the driver never drives it. */
    var ce: Pin
    /** The calls made on the SPI device, oldest first. */
    ghost var log: seq<Transaction>
    /** False once `destroy` has handed the device and the pin back. */
    ghost var live: bool

    constructor (spi: Spi, ce: Pin)
      ensures this.spi == spi && this.ce == ce && log == [] && live
    {
      this.spi := spi;
      this.ce := ce;
      log := [];
      live := true;
    }

    /** `new`: always succeeds, holding the two values given and having made
        no SPI call. */
    static method New(spi: Spi, ce: Pin) returns (r: Result<MyDriver<Spi, Pin, SpiError, DigitalError>, DriverError<SpiError, DigitalError>>)
      ensures r.Ok?
      ensures fresh(r.value) && r.value.spi == spi && r.value.ce == ce && r.value.log == [] && r.value.live
    {
      var d := new MyDriver(spi, ce);
      r := Ok(d);
    }

    /** `destroy`: hands back the SPI device and the pin, making no SPI call;
        the driver is then gone. */
    method Destroy() returns (s: Spi, c: Pin)
      requires live
      modifies this`live
      ensures s == spi && c == ce && !live
    {
      s, c := spi, ce;
      live := false;
    }

    /** `write_register`: one SPI write of the frame made of the address byte
        and the raw storage's bytes 0 and 1; a device error is returned as
        `Spi`, anything else as success. */
    method WriteRegister(address: Byte, data: seq<Byte>, outcome: WriteOutcome<SpiError>)
      returns (r: Result<(), DriverError<SpiError, DigitalError>>)
      requires live && |data| >= 2
      modifies this`log
      ensures log == old(log) + [Write([address, data[0], data[1]])]
      ensures r.Ok? <==> outcome.Written?
      ensures outcome.WriteFailed? ==> r == Err(Spi(outcome.error))
    {
      var command := WriteFrame(address, data);
      log := log + [Write(command)];
      match outcome {
        case WriteFailed(e) =>
          return Err(Spi(e));
        case Written =>
      }
      r := Ok(());
    }

    /** `read_register`: one full-duplex transfer of the frame made of the
        address byte masked with bit 7 and the raw storage's bytes 1 and 0,
        into a 3-byte buffer. A device error is returned as `Spi` with `data`
        untouched; otherwise the buffer's bits are copied into `data`, which
        must then hold exactly 24 bits. */
    method ReadRegister(address: Byte, data: array<Byte>, outcome: TransferOutcome<SpiError>)
      returns (r: Result<(), DriverError<SpiError, DigitalError>>)
      requires live && data.Length >= 2
      requires outcome.Received? ==> |outcome.rx| == 3 && data.Length == 3
      modifies this`log, data
      ensures log == old(log) + [Transfer([address & 0x80, old(data[1]), old(data[0])])]
      ensures outcome.TransferFailed? ==> r == Err(Spi(outcome.error)) && data[..] == old(data[..])
      ensures outcome.Received? ==> r == Ok(()) && data[..] == outcome.rx
    {
      var command := ReadFrame(address, data[..]);
      var buf := new Byte[3](_ => 0);
      log := log + [Transfer(command)];
      match outcome {
        case TransferFailed(e) =>
          return Err(Spi(e));
        case Received(rx) =>
          buf[0], buf[1], buf[2] := rx[0], rx[1], rx[2];
          assert buf[..] == rx;
      }
      CopyFromBitslice(data, buf[..]);
      BitsInjective(data[..], buf[..]);
      r := Ok(());
    }

    /** The register write accessor: only a read-write register has one. It
        starts from the register's reset value, applies the closure's field
        assignments in order and writes the result's raw storage to the
        register's address. */
    method WriteFields(reg: Register, ws: seq<FieldWrite>, outcome: WriteOutcome<SpiError>)
      returns (r: Result<(), DriverError<SpiError, DigitalError>>)
      requires live && Writable(reg) && ValidWrites(ws)
      modifies this`log
      ensures log == old(log) + WriteTraffic(reg.address, Apply(reg.reset, ws))
      ensures r.Ok? <==> outcome.Written?
      ensures outcome.WriteFailed? ==> r == Err(Spi(outcome.error))
    {
      var v := Apply(reg.reset, ws);
      r := WriteRegister(reg.address, Raw(v), outcome);
    }

    /** `reset`: one register-0 write that sets `powerdown` on the reset
        value, the frame 0x00, 0x40, 0x71; its error, if any, is returned. */
    method Reset(outcome: WriteOutcome<SpiError>) returns (r: Result<(), DriverError<SpiError, DigitalError>>)
      requires live
      modifies this`log
      ensures log == old(log) + ResetTraffic()
      ensures log == old(log) + [Write([0x00, 0x40, 0x71])]
      ensures r.Ok? <==> outcome.Written?
      ensures outcome.WriteFailed? ==> r == Err(Spi(outcome.error))
    {
      RegisterDeclarations();
      ApplyOne(R0.reset, FieldWrite(POWERDOWN, true));
      r := WriteFields(R0, [FieldWrite(POWERDOWN, true)], outcome);
    }
  }

  /** The mock helpers of the tests: a driver made with `new` and taken apart
      with `destroy` gives back the very SPI device and pin it was given. */
  method NewThenDestroy<Spi, Pin, SpiError, DigitalError>(spi: Spi, ce: Pin) returns (s: Spi, c: Pin)
    ensures s == spi && c == ce
  {
    var r := MyDriver<Spi, Pin, SpiError, DigitalError>.New(spi, ce);
    s, c := r.value.Destroy();
  }

  /** `reset` as written does not send what the reset test expects: it sends
      one frame, 0x00, 0x40, 0x71, where the test expects the two-frame pulse.
      The pulse left commented out in the driver is exactly what the test
      expects. */
  lemma ResetDiffersFromTest()
    ensures ResetTraffic() == [Write([0x00, 0x40, 0x71])]
    ensures |ResetTraffic()| != |TestResetTraffic()|
    ensures ResetTraffic()[0] != TestResetTraffic()[0]
    ensures PulseResetTraffic() == TestResetTraffic()
  {
  }

  /** A read of R76 goes out addressed to R0. */
  lemma ReadOfR76AddressesR0(raw: seq<Byte>)
    requires |raw| >= 2
    ensures ReadFrame(R76.address, raw)[0] == R0.address
    ensures R76.address != R0.address
  {
  }

  /** No declared register's storage has the bit length of a 3-byte
      response, which the copy of a successful read requires. */
  lemma RegisterReadsMismatchBuffer(buf: seq<Byte>)
    requires |buf| == 3
    ensures forall reg :: reg in REGISTERS ==> 8 * (reg.sizeBits / 8) != |Bits(buf)|
  {
  }
}
