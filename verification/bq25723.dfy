/**
 * The BQ25723 register-access driver.
 *
 * The driver is an immutable record (bus address, clock speed, whether the
 * liveness probe has passed). Every operation is a pure function of that
 * record and the transport oracle, returning the calls it made on the
 * transport and its result; `Begin` and `SetAddress` also return the new
 * record. `getAddress` and `isInitialized` are the record's `address` and
 * `initialized` fields.
 */
module BQ25723 {
  import opened WordBytes
  import opened Results
  import opened TwoWireBus
  import Registers

  /** A `uint32_t` clock speed in hertz. */
  type Speed = x: int | 0 <= x < 0x1_0000_0000

  const DefaultSpeed: Speed := 100000

  /** What a failed read returns in place of a value: all sixteen bits set. */
  const Sentinel: Word := 0xFFFF

  /** The driver's state. */
  datatype Driver = Driver(address: Byte, speed: Speed, initialized: bool)

  /** Why a register read produced no value. */
  datatype ReadError =
    | NotInitialized                  // the liveness probe has not passed
    | AddressPhaseFailed(status: nat) // selecting the register was not acknowledged
    | WrongByteCount(received: nat)   // the device did not deliver exactly two bytes

  /** The result of an operation that leaves the driver's state as it was. */
  datatype Transfer<T> = Transfer(events: seq<Event>, result: T)

  /** The result of an operation that may change the driver's state. */
  datatype Step<T> = Step(driver: Driver, events: seq<Event>, result: T)

  /** Whether a read into a caller's slot succeeded, and what the slot holds afterwards. */
  datatype Stored = Stored(ok: bool, value: Word)

  /** A bulk read's success count and the caller's buffer afterwards. */
  datatype Bulk = Bulk(successes: nat, slots: seq<Word>)

  /** A driver bound to `address` and `speed`, not yet probed. */
  function NewDriver(address: Byte := Registers.DefaultAddress, speed: Speed := DefaultSpeed): (d: Driver)
    ensures d.address == address && d.speed == speed
    ensures !d.initialized
  {
    Driver(address, speed, false)
  }

  /** Liveness probe: an address-only transaction, acknowledged or not. */
  function Probe(d: Driver, bus: TwoWire): (r: Transfer<bool>)
    ensures r.events == [BeginTransmission(d.address), EndTransmission(true)]
    ensures r.result <==> bus.status(d.address, [], true) == 0
  {
    var t := Transmit(bus, d.address, [], true);
    Transfer(t.events, t.status == 0)
  }

  /** Re-runs the liveness probe without consulting or changing the cached flag. */
  function IsConnected(d: Driver, bus: TwoWire): (r: Transfer<bool>)
    ensures r.events == [BeginTransmission(d.address), EndTransmission(true)]
    ensures r.result <==> bus.status(d.address, [], true) == 0
  {
    Probe(d, bus)
  }

  /**
   * Configures the transport (explicit pins only when both are non-negative),
   * sets its clock, then probes; the driver is ready exactly when the probe passed.
   */
  function Begin(d: Driver, bus: TwoWire, sda: int := -1, scl: int := -1): (r: Step<bool>)
    ensures r.events ==
      [Configure(if sda >= 0 && scl >= 0 then Some((sda, scl)) else None), SetClock(d.speed),
       BeginTransmission(d.address), EndTransmission(true)]
    ensures r.result <==> bus.status(d.address, [], true) == 0
    ensures r.driver == d.(initialized := r.result)
  {
    var setup := [Configure(if sda >= 0 && scl >= 0 then Some((sda, scl)) else None), SetClock(d.speed)];
    var probe := IsConnected(d, bus);
    if !probe.result then Step(d.(initialized := false), setup + probe.events, false)
    else Step(d.(initialized := true), setup + probe.events, true)
  }

  /** Rebinds the driver to another bus address; the probe must be run again. */
  function SetAddress(d: Driver, address: Byte): (r: Driver)
    ensures r.address == address
    ensures !r.initialized
    ensures r.speed == d.speed
  {
    d.(address := address, initialized := false)
  }

  /** Whether a read of `reg` produces a value: the driver is ready, the register is selected, two bytes come back. */
  predicate ReadSucceeds(d: Driver, bus: TwoWire, reg: Byte) {
    d.initialized && bus.status(d.address, [reg], false) == 0 && |bus.reply(d.address, reg)| == 2
  }

  /**
   * The transport calls of a read of `reg`: none before the probe has
   * passed; else the register byte in a transaction closed without a stop,
   * then, only if that was acknowledged, a request for two bytes.
   */
  function ReadEvents(d: Driver, bus: TwoWire, reg: Byte): seq<Event> {
    if !d.initialized then []
    else if bus.status(d.address, [reg], false) != 0 then
      [BeginTransmission(d.address), WriteByte(reg), EndTransmission(false)]
    else
      [BeginTransmission(d.address), WriteByte(reg), EndTransmission(false), RequestFrom(d.address, 2)]
  }

  /**
   * Reads a 16-bit register: select it in a transaction closed without a
   * stop, then request two bytes, the first being the low byte.
   */
  function ReadRegister(d: Driver, bus: TwoWire, reg: Byte): (r: Transfer<Result<Word, ReadError>>)
    ensures r.events == ReadEvents(d, bus, reg)
    ensures r.result.Ok? <==> ReadSucceeds(d, bus, reg)
    ensures r.result.Ok? ==>
      && LowByte(r.result.value) == bus.reply(d.address, reg)[0]
      && HighByte(r.result.value) == bus.reply(d.address, reg)[1]
      && r.result.value == (bus.reply(d.address, reg)[1] as int) * 0x100 + bus.reply(d.address, reg)[0] as int
    ensures !d.initialized ==> r.result == Err(NotInitialized)
    ensures d.initialized && bus.status(d.address, [reg], false) != 0 ==>
      r.result == Err(AddressPhaseFailed(bus.status(d.address, [reg], false)))
    ensures d.initialized && bus.status(d.address, [reg], false) == 0 && |bus.reply(d.address, reg)| != 2 ==>
      r.result == Err(WrongByteCount(|bus.reply(d.address, reg)|))
  {
    if !d.initialized then Transfer([], Err(NotInitialized))
    else
      var select := Transmit(bus, d.address, [reg], false);
      if select.status != 0 then Transfer(select.events, Err(AddressPhaseFailed(select.status)))
      else
        var events := select.events + [RequestFrom(d.address, 2)];
        var received := bus.reply(d.address, reg);
        if |received| != 2 then Transfer(events, Err(WrongByteCount(|received|)))
        else
          var lsb, msb := received[0], received[1];
          SplitCombine(lsb, msb);
          Transfer(events, Ok(Combine(lsb, msb)))
  }

  /**
   * The out-parameter form of the read (`uint16_t* value`): on success the
   * caller's slot receives the value, on failure it keeps what it held.
   */
  function ReadRegisterInto(d: Driver, bus: TwoWire, reg: Byte, slot: Word): (r: Transfer<Stored>)
    ensures r.events == ReadRegister(d, bus, reg).events
    ensures r.result == Stored(ReadRegister(d, bus, reg).result.Ok?, ReadRegister(d, bus, reg).result.GetOr(slot))
  {
    var read := ReadRegister(d, bus, reg);
    match read.result
    case Ok(v) => Transfer(read.events, Stored(true, v))
    case Err(_) => Transfer(read.events, Stored(false, slot))
  }

  /** The convenience read: the value, or `Sentinel` on any failure. */
  function ReadRegisterOr(d: Driver, bus: TwoWire, reg: Byte): (r: Transfer<Word>)
    ensures r.events == ReadRegister(d, bus, reg).events
    ensures r.result == ReadRegister(d, bus, reg).result.GetOr(Sentinel)
  {
    var read := ReadRegisterInto(d, bus, reg, 0);
    Transfer(read.events, if read.result.ok then read.result.value else Sentinel)
  }

  /**
   * Writes a 16-bit register: one transaction carrying the register byte,
   * the low byte, then the high byte, closed with a stop.
   */
  function WriteRegister(d: Driver, bus: TwoWire, reg: Byte, value: Word): (r: Transfer<bool>)
    ensures !d.initialized ==> r.events == [] && !r.result
    ensures d.initialized ==>
      r.events == [BeginTransmission(d.address), WriteByte(reg),
                   WriteByte(value % 0x100), WriteByte(value / 0x100), EndTransmission(true)]
    ensures r.result <==>
      d.initialized && bus.status(d.address, [reg, value % 0x100, value / 0x100], true) == 0
  {
    if !d.initialized then Transfer([], false)
    else
      var t := Transmit(bus, d.address, [reg, LowByte(value), HighByte(value)], true);
      Transfer(t.events, t.status == 0)
  }

  /**
   * Register read in slot `i` of a bulk read starting at `start`: the
   * driver passes `start + i` as a `uint8_t`, so addresses wrap past 0xFF.
   */
  function BulkAddress(start: Byte, i: nat): Byte {
    (start + i) % 0x100
  }

  /** The transport calls of the first `n` reads of a bulk read, one read after another. */
  function BulkEvents(d: Driver, bus: TwoWire, start: Byte, n: nat): seq<Event>
    decreases n
  {
    if n == 0 then []
    else BulkEvents(d, bus, start, n - 1) + ReadEvents(d, bus, BulkAddress(start, n - 1))
  }

  /** How many of the first `n` reads of a bulk read succeed. */
  function CountRead(d: Driver, bus: TwoWire, start: Byte, n: nat): (k: nat)
    ensures k <= n
    decreases n
  {
    if n == 0 then 0
    else CountRead(d, bus, start, n - 1)
         + (if ReadSucceeds(d, bus, BulkAddress(start, n - 1)) then 1 else 0)
  }

  /** Before the probe has passed, a bulk read makes no call and counts no success. */
  lemma {:induction false} UninitializedBulkIsSilent(d: Driver, bus: TwoWire, start: Byte, n: nat)
    requires !d.initialized
    ensures BulkEvents(d, bus, start, n) == []
    ensures CountRead(d, bus, start, n) == 0
  {
    if n > 0 {
      UninitializedBulkIsSilent(d, bus, start, n - 1);
    }
  }

  /**
   * The loop of a bulk read after its first `n` slots: the success count,
   * the buffer, and the calls made so far.
   */
  function ReadSlots(d: Driver, bus: TwoWire, start: Byte, buffer: seq<Word>, n: nat): (r: Transfer<Bulk>)
    requires n <= |buffer|
    ensures r.result.successes == CountRead(d, bus, start, n)
    ensures r.events == BulkEvents(d, bus, start, n)
    ensures |r.result.slots| == |buffer|
    ensures forall i :: 0 <= i < n ==> r.result.slots[i] == ReadRegisterOr(d, bus, BulkAddress(start, i)).result
    ensures forall i :: n <= i < |buffer| ==> r.result.slots[i] == buffer[i]
    decreases n
  {
    if n == 0 then Transfer([], Bulk(0, buffer))
    else
      var before := ReadSlots(d, bus, start, buffer, n - 1);
      var successes, slots := before.result.successes, before.result.slots;
      var read := ReadRegisterInto(d, bus, BulkAddress(start, n - 1), slots[n - 1]);
      var events := before.events + read.events;
      var stored := slots[n - 1 := read.result.value];
      if read.result.ok then Transfer(events, Bulk(successes + 1, stored))
      else Transfer(events, Bulk(successes, stored[n - 1 := Sentinel]))
  }

  /**
   * Reads `count` consecutive registers, each in its own transaction, into
   * the first `count` slots of `buffer`. A failed slot is set to `Sentinel`
   * and does not stop the reads after it; the result counts the successes.
   */
  function ReadMultipleRegisters(d: Driver, bus: TwoWire, start: Byte, buffer: seq<Word>, count: Byte): (r: Transfer<Bulk>)
    requires count <= |buffer|
    ensures r.result.successes == CountRead(d, bus, start, count) <= count
    ensures r.events == BulkEvents(d, bus, start, count)
    ensures |r.result.slots| == |buffer|
    ensures !d.initialized || count == 0 ==> r == Transfer([], Bulk(0, buffer))
    ensures d.initialized ==>
      forall i :: 0 <= i < count ==> r.result.slots[i] == ReadRegisterOr(d, bus, BulkAddress(start, i)).result
    ensures forall i :: count <= i < |buffer| ==> r.result.slots[i] == buffer[i]
  {
    if !d.initialized then
      UninitializedBulkIsSilent(d, bus, start, count);
      Transfer([], Bulk(0, buffer))
    else if count == 0 then Transfer([], Bulk(0, buffer))
    else ReadSlots(d, bus, start, buffer, count)
  }
}
