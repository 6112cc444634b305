/**
 * Properties that relate several driver operations: the byte-order round
 * trip through the wire, the lifecycle gate, the bulk read's bookkeeping,
 * and example runs of the BQ25723 driver.
 */
module DriverProperties {
  import opened WordBytes
  import opened Results
  import opened TwoWireBus
  import opened BQ25723
  import Registers

  /** The bytes queued by the `WriteByte` calls of a call log, in order. */
  function Payload(events: seq<Event>): seq<Byte> {
    if |events| == 0 then []
    else (if events[0].WriteByte? then [events[0].b] else []) + Payload(events[1..])
  }

  /** The bytes queued by two call logs in sequence are those of the first, then those of the second. */
  lemma {:induction false} PayloadAppend(a: seq<Event>, b: seq<Event>)
    ensures Payload(a + b) == Payload(a) + Payload(b)
    decreases |a|
  {
    if |a| == 0 {
      assert a + b == b;
    } else {
      assert (a + b)[0] == a[0];
      assert (a + b)[1..] == a[1..] + b;
      PayloadAppend(a[1..], b);
    }
  }

  /**
   * A write puts exactly the register byte, the low byte and the high byte
   * on the wire, and a read decodes those two data bytes back to the value.
   */
  lemma WritePayloadDecodes(d: Driver, bus: TwoWire, reg: Byte, value: Word)
    requires d.initialized
    ensures Payload(WriteRegister(d, bus, reg, value).events) == [reg, LowByte(value), HighByte(value)]
    ensures Combine(LowByte(value), HighByte(value)) == value
  {
    var es := WriteRegister(d, bus, reg, value).events;
    assert es == [BeginTransmission(d.address)] + [WriteByte(reg)] + [WriteByte(LowByte(value))]
               + [WriteByte(HighByte(value))] + [EndTransmission(true)];
    PayloadAppend([BeginTransmission(d.address)] + [WriteByte(reg)] + [WriteByte(LowByte(value))]
                  + [WriteByte(HighByte(value))], [EndTransmission(true)]);
    PayloadAppend([BeginTransmission(d.address)] + [WriteByte(reg)] + [WriteByte(LowByte(value))],
                  [WriteByte(HighByte(value))]);
    PayloadAppend([BeginTransmission(d.address)] + [WriteByte(reg)], [WriteByte(LowByte(value))]);
    PayloadAppend([BeginTransmission(d.address)], [WriteByte(reg)]);
    CombineSplit(value);
  }

  /**
   * A transport that acknowledges everything and answers every two-byte
   * request with the data bytes (all but the register byte) that `frame` queued.
   */
  function EchoOf(frame: seq<Event>): TwoWire {
    var payload := Payload(frame);
    TwoWire((a: Byte, p: seq<Byte>, stop: bool) => 0,
            (a: Byte, r: Byte) => if |payload| == 0 then [] else payload[1..])
  }

  /**
   * Writing `value` and reading the register back from a device that returns
   * the bytes the write carried yields `value`: low byte first both ways.
   */
  lemma WriteThenEchoReadRoundTrip(d: Driver, bus: TwoWire, reg: Byte, value: Word)
    requires d.initialized
    ensures ReadRegister(d, EchoOf(WriteRegister(d, bus, reg, value).events), reg).result == Ok(value)
  {
    WritePayloadDecodes(d, bus, reg, value);
    var echo := EchoOf(WriteRegister(d, bus, reg, value).events);
    assert echo.reply(d.address, reg) == [LowByte(value), HighByte(value)];
    SplitInjective(ReadRegister(d, echo, reg).result.value, value);
  }

  /**
   * Changing the address, even to the current one, closes the gate: every
   * register operation fails without a call on the transport until `Begin`
   * probes the new address.
   */
  lemma SetAddressForcesReprobe(d: Driver, bus: TwoWire, address: Byte, reg: Byte, value: Word,
                                start: Byte, buffer: seq<Word>, count: Byte)
    requires count <= |buffer|
    ensures var d' := SetAddress(d, address);
      && ReadRegister(d', bus, reg) == Transfer([], Err(NotInitialized))
      && ReadRegisterOr(d', bus, reg) == Transfer([], Sentinel)
      && WriteRegister(d', bus, reg, value) == Transfer([], false)
      && ReadMultipleRegisters(d', bus, start, buffer, count) == Transfer([], Bulk(0, buffer))
      && (Begin(d', bus).driver.initialized <==> bus.status(address, [], true) == 0)
      && Begin(d', bus).driver.address == address
  {
  }

  /** Every read of a bulk read succeeds exactly when the count equals `n`. */
  lemma {:induction false} AllSucceedIffFullCount(d: Driver, bus: TwoWire, start: Byte, n: nat)
    ensures CountRead(d, bus, start, n) == n <==>
      forall i :: 0 <= i < n ==> ReadSucceeds(d, bus, BulkAddress(start, i))
  {
    if n > 0 {
      AllSucceedIffFullCount(d, bus, start, n - 1);
    }
  }

  /** No read of a bulk read succeeds exactly when the count is zero. */
  lemma {:induction false} NoneSucceedIffZeroCount(d: Driver, bus: TwoWire, start: Byte, n: nat)
    ensures CountRead(d, bus, start, n) == 0 <==>
      forall i :: 0 <= i < n ==> !ReadSucceeds(d, bus, BulkAddress(start, i))
  {
    if n > 0 {
      NoneSucceedIffZeroCount(d, bus, start, n - 1);
    }
  }

  /** The calls of the first `i` reads of a bulk read are a prefix of the calls of the first `n`. */
  lemma {:induction false} BulkEventsPrefix(d: Driver, bus: TwoWire, start: Byte, i: nat, n: nat)
    requires i <= n
    ensures BulkEvents(d, bus, start, i) <= BulkEvents(d, bus, start, n)
    decreases n
  {
    if i < n {
      BulkEventsPrefix(d, bus, start, i, n - 1);
    }
  }

  /**
   * Each read of a bulk read is issued in full, in its place, whatever the
   * reads before it did: on a ready driver, the `i`-th block of calls begins
   * by selecting register `start + i` (mod 256).
   */
  lemma BulkReadsEverySlot(d: Driver, bus: TwoWire, start: Byte, n: nat, i: nat)
    requires i < n
    ensures var all := BulkEvents(d, bus, start, n);
      && |BulkEvents(d, bus, start, i + 1)| <= |all|
      && all[|BulkEvents(d, bus, start, i)|..|BulkEvents(d, bus, start, i + 1)|]
         == ReadRegister(d, bus, BulkAddress(start, i)).events
    ensures d.initialized ==>
      && |BulkEvents(d, bus, start, i)| + 1 < |BulkEvents(d, bus, start, n)|
      && BulkEvents(d, bus, start, n)[|BulkEvents(d, bus, start, i)|] == BeginTransmission(d.address)
      && BulkEvents(d, bus, start, n)[|BulkEvents(d, bus, start, i)| + 1] == WriteByte(BulkAddress(start, i))
  {
    BulkEventsPrefix(d, bus, start, i + 1, n);
    var all := BulkEvents(d, bus, start, n);
    var before := BulkEvents(d, bus, start, i);
    var upto := BulkEvents(d, bus, start, i + 1);
    assert upto == before + ReadEvents(d, bus, BulkAddress(start, i));
    assert all[..|upto|] == upto;
    assert all[|before|..|upto|] == upto[|before|..];
  }

  /** Bulk-read addresses wrap past 0xFF, as the `uint8_t` parameter truncates `start + i`. */
  lemma BulkAddressWraps(start: Byte, i: nat)
    ensures BulkAddress(start, i + 0x100) == BulkAddress(start, i)
    ensures BulkAddress(0xFF, 1) == 0x00
  {
  }

  /**
   * The convenience read cannot tell a register holding 0xFFFF from a
   * failed read: both come back as `Sentinel`.
   */
  lemma SentinelIsAmbiguous(d: Driver, reg: Byte)
    requires d.initialized
    ensures var holdsAllOnes := TwoWire((a: Byte, p: seq<Byte>, s: bool) => 0, (a: Byte, r: Byte) => [0xFF, 0xFF]);
      var absent := TwoWire((a: Byte, p: seq<Byte>, s: bool) => 2, (a: Byte, r: Byte) => []);
      && ReadRegister(d, holdsAllOnes, reg).result == Ok(0xFFFF)
      && ReadRegister(d, absent, reg).result.Err?
      && ReadRegisterOr(d, holdsAllOnes, reg).result == ReadRegisterOr(d, absent, reg).result
  {
  }

  /** A transport on which only the default BQ25723 address acknowledges. */
  function DefaultDeviceBus(reply: (Byte, Byte) -> seq<Byte>): TwoWire {
    TwoWire((a: Byte, p: seq<Byte>, s: bool) => if a == Registers.DefaultAddress then 0 else 2, reply)
  }

  /** Initializing against a device that acknowledges 0x6B makes the driver ready. */
  lemma InitializeAcknowledged(reply: (Byte, Byte) -> seq<Byte>)
    ensures Begin(NewDriver(), DefaultDeviceBus(reply)).result
    ensures Begin(NewDriver(), DefaultDeviceBus(reply)).driver == Driver(0x6B, 100000, true)
  {
  }

  /** Reading the device-identity register when the device sends 0x23 then 0x00 yields 0x0023. */
  lemma ReadDeviceId()
    ensures var bus := DefaultDeviceBus((a: Byte, r: Byte) => if r == Registers.DeviceId then [0x23, 0x00] else []);
      ReadRegister(Begin(NewDriver(), bus).driver, bus, Registers.DeviceId).result == Ok(0x0023)
  {
    var bus := DefaultDeviceBus((a: Byte, r: Byte) => if r == Registers.DeviceId then [0x23, 0x00] else []);
    var d := Begin(NewDriver(), bus).driver;
    assert d == Driver(0x6B, 100000, true);
    assert bus.reply(0x6B, 0x2F) == [0x23, 0x00];
    assert ReadSucceeds(d, bus, 0x2F);
    var v := ReadRegister(d, bus, 0x2F).result.value;
    assert LowByte(v) == 0x23 && HighByte(v) == 0x00;
    SplitInjective(v, 0x0023);
  }

  /** Writing 0x1770 to the charge-current register sends 0x02, 0x70, 0x17 in one transaction. */
  lemma WriteChargeCurrent(bus: TwoWire)
    ensures WriteRegister(Driver(0x6B, 100000, true), bus, Registers.ChargeCurrent, 0x1770).events
      == [BeginTransmission(0x6B), WriteByte(0x02), WriteByte(0x70), WriteByte(0x17), EndTransmission(true)]
  {
  }

  /**
   * Against a bus that never acknowledges, initialization fails, the driver
   * stays uninitialized, and a later read fails without touching the bus.
   */
  lemma InitializeNoDevice(reg: Byte)
    ensures var silent := TwoWire((a: Byte, p: seq<Byte>, s: bool) => 2, (a: Byte, r: Byte) => []);
      var b := Begin(NewDriver(), silent);
      && !b.result
      && !b.driver.initialized
      && ReadRegister(b.driver, silent, reg) == Transfer([], Err(NotInitialized))
  {
  }
}
