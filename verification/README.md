# BQ25723 register-access driver, modelled in Dafny

This project models the Arduino/ESP32 driver for the TI BQ25723 battery-charge
controller (`Sketch/BQ25723.hpp`), which reaches the chip over an I2C (two-wire)
bus. The driver has a two-state lifecycle: uninitialized, or ready once a
liveness probe was acknowledged. It reads and writes 16-bit registers one
transaction at a time, low byte first. It reads runs of consecutive registers
and counts the successes. It names the registers of its fixed catalog.

The driver is an immutable record `Driver(address, speed, initialized)`. Each
operation is a pure function. It takes the record and a transport oracle and
returns the log of calls it made on the transport (`Event`s: `Configure`,
`SetClock`, `BeginTransmission`, `WriteByte`, `EndTransmission`,
`RequestFrom`) with its result. `Begin` and `SetAddress` also return the new
record. `getAddress` and `isInitialized` are the record's `address` and
`initialized` fields. `isConnected` returns no record, so it cannot change one.

The transport (`TwoWire`) is an oracle with two parts:
- `status(address, payload, stop)` is what `endTransmission` reports for a
  transaction. Zero means success.
- `reply(address, reg)` is the bytes the device delivers when two are
  requested right after register `reg` was selected.

Modules:
- `WordBytes` (word_bytes.dfy): `uint8_t` and `uint16_t` values, and the
  low/high byte split with its inverse.
- `Registers` (registers.dfy): the bus addresses, the register catalog and the
  name lookup.
- `TwoWireBus` (two_wire.dfy): the call log, the oracle and one outgoing
  transaction.
- `BQ25723` (bq25723.dfy): the driver's operations.
- `DriverProperties` (driver_properties.dfy): lemmas that relate several
  operations, and example runs.
- `Results` (results.dfy): `Option` and `Result`.

Modelling notes:
- A read fails whenever `requestFrom` returns a count other than 2
  (Sketch/BQ25723.hpp:120).
- `ReadRegister` returns an error kind: the probe has not passed, the
  register-select transaction was not acknowledged, or the byte count was
  wrong. `ReadRegisterInto` is the code's `bool` form with the out-parameter.
- A bulk read returns the success count and the updated buffer.

## Model

| member | source | states |
|---|---|---|
| `WordBytes.LowByte` | Sketch/BQ25723.hpp:156 | the first byte sent is what remains of the value once its high byte times 256 is taken away |
| `WordBytes.HighByte` | Sketch/BQ25723.hpp:157 | the second byte sent is the number of whole 256s in the value |
| `WordBytes.Combine` | Sketch/BQ25723.hpp:124-127 | the word rebuilt from the first (low) and second (high) byte received has exactly those bytes as its remainder and quotient by 256 |
| `WordBytes.CombineSplit` | Sketch/BQ25723.hpp:156-157 | combining the two bytes a write sends gives back the written value, for every 16-bit value |
| `WordBytes.SplitCombine` | Sketch/BQ25723.hpp:124-127 | splitting a received word gives back both received bytes, in order |
| `WordBytes.SplitInjective` | Sketch/BQ25723.hpp:124-127 | two words with the same low and high bytes are equal |
| `WordBytes.MaskIsRemainder` | Sketch/BQ25723.hpp:156 | in unsigned 16-bit arithmetic `value & 0xFF` is the remainder by 256 |
| `WordBytes.ShiftIsQuotient` | Sketch/BQ25723.hpp:157 | in unsigned 16-bit arithmetic `(value >> 8) & 0xFF` is the quotient by 256 |
| `WordBytes.ShiftOrIsSum` | Sketch/BQ25723.hpp:127 | shifting msb left by 8 and OR-ing in lsb equals `msb * 256 + lsb`, the bytes occupying disjoint bits |
| `Registers.RegisterName` | Sketch/BQ25723.hpp:213-241 | the name is "UNKNOWN" exactly for offsets outside the catalog, and is never empty |
| `Registers.CatalogIsRanges` | Sketch/BQ25723.hpp:19-43 | the catalog is exactly the even offsets 0x00-0x0E, 0x20-0x2C and 0x30-0x3E plus 0x2E and 0x2F |
| `Registers.UnknownIffOutsideRanges` | Sketch/BQ25723.hpp:240 | every offset outside those ranges, and only those, is named "UNKNOWN" |
| `Registers.CatalogSize` | Sketch/BQ25723.hpp:19-43 | the catalog has 25 pairwise distinct offsets |
| `Registers.CatalogNamesDistinct` | Sketch/BQ25723.hpp:215-239 | distinct catalog offsets have distinct names |
| `Registers.KnownNames` | Sketch/BQ25723.hpp:215-231 | 0x00 is named "CHARGE_OPTION_0" and the device-identity register "DEVICE_ID" |
| `Registers.BoundaryOffsetsUnknown` | Sketch/BQ25723.hpp:240 | 0x01, 0x0F, 0x1E, 0x40 and 0xFF are named "UNKNOWN" |
| `TwoWireBus.Transmit` | Sketch/BQ25723.hpp:154-159 | a transaction begins addressed to the device, queues the payload, closes with or without a stop, and reports the oracle's status for exactly that payload |
| `BQ25723.NewDriver` | Sketch/BQ25723.hpp:65-68 | a new driver holds the given address and speed (by default 0x6B and 100000 Hz) and is not initialized |
| `BQ25723.Probe` | Sketch/BQ25723.hpp:53-56 | the probe is an address-only transaction closed with a stop, and passes exactly when its status is 0 |
| `BQ25723.IsConnected` | Sketch/BQ25723.hpp:99-101 | the connection check makes the probe's calls and returns the probe's outcome |
| `BQ25723.Begin` | Sketch/BQ25723.hpp:76-93 | transport set-up uses explicit pins only when both are non-negative, then the clock, then the probe; the result is the probe's outcome and the driver becomes initialized exactly then, its other fields unchanged |
| `BQ25723.SetAddress` | Sketch/BQ25723.hpp:195-198 | the new address is held and the driver is uninitialized, whatever the old address was; the speed is unchanged |
| `BQ25723.ReadRegister` | Sketch/BQ25723.hpp:109-130 | no call before initialization; an address phase closed without a stop; a two-byte request only after it was acknowledged; success exactly when initialized, acknowledged and two bytes arrived; the value is the second byte received times 256 plus the first; each failure with its cause |
| `BQ25723.ReadRegisterInto` | Sketch/BQ25723.hpp:109-130 | the out-parameter form reports the read's success; on success the slot holds the value read, on failure it keeps its old contents |
| `BQ25723.ReadRegisterOr` | Sketch/BQ25723.hpp:137-143 | the convenience read returns the value read, or 0xFFFF on any failure |
| `BQ25723.WriteRegister` | Sketch/BQ25723.hpp:151-160 | no call before initialization; otherwise exactly begin, register byte, low byte, high byte, end with stop; success exactly when initialized and that transaction's status is 0 |
| `BQ25723.CountRead` | Sketch/BQ25723.hpp:172-180 | the success count of the first n reads never exceeds n |
| `BQ25723.UninitializedBulkIsSilent` | Sketch/BQ25723.hpp:170 | before initialization a bulk read makes no call and counts no success |
| `BQ25723.ReadSlots` | Sketch/BQ25723.hpp:172-180 | after n iterations the count is the number of successful reads, the calls are the n reads' calls in order, slot i holds read i's value or 0xFFFF, and slots from n on are untouched |
| `BQ25723.ReadMultipleRegisters` | Sketch/BQ25723.hpp:169-181 | returns 0 with no call and the buffer untouched when uninitialized or count is 0; otherwise counts the successful reads (at most count) of registers start+i mod 256, fills each of the first count slots with that read's value or 0xFFFF, and leaves the rest of the buffer alone |
| `DriverProperties.PayloadAppend` | Sketch/BQ25723.hpp:155-157 | the bytes queued by two call logs in sequence are the first log's bytes followed by the second's |
| `DriverProperties.WritePayloadDecodes` | Sketch/BQ25723.hpp:154-159 | the bytes a write sends are exactly register, low byte, high byte, and the two data bytes decode back to the value |
| `DriverProperties.WriteThenEchoReadRoundTrip` | Sketch/BQ25723.hpp:124-157 | reading a register from a device that returns the bytes a write of v carried yields v, for every 16-bit v |
| `DriverProperties.SetAddressForcesReprobe` | Sketch/BQ25723.hpp:195-198 | after an address change every register operation fails without a call, and a later `Begin` succeeds exactly when the new address acknowledges |
| `DriverProperties.AllSucceedIffFullCount` | Sketch/BQ25723.hpp:172-180 | the bulk count equals n if and only if every one of the n reads succeeds |
| `DriverProperties.NoneSucceedIffZeroCount` | Sketch/BQ25723.hpp:172-180 | the bulk count is 0 if and only if every one of the n reads fails |
| `DriverProperties.BulkEventsPrefix` | Sketch/BQ25723.hpp:173-179 | the calls of the first i reads of a bulk read are a prefix of those of the first n |
| `DriverProperties.BulkReadsEverySlot` | Sketch/BQ25723.hpp:173-179 | the i-th block of a bulk read's calls is read i's calls, and on a ready driver it selects register start+i, whatever the earlier reads did |
| `DriverProperties.BulkAddressWraps` | Sketch/BQ25723.hpp:174 | `BulkAddress`, the register read in slot i, wraps modulo 256 as the `uint8_t` parameter truncates `startAddr + i`, so 0xFF is followed by 0x00 |
| `DriverProperties.SentinelIsAmbiguous` | Sketch/BQ25723.hpp:137-143 | a register holding 0xFFFF and a failed read give the same convenience result |
| `DriverProperties.InitializeAcknowledged` | Sketch/BQ25723.hpp:76-93 | with a device acknowledging 0x6B, `Begin` on a default driver succeeds and leaves it ready |
| `DriverProperties.ReadDeviceId` | Sketch/BQ25723.hpp:109-130 | when the device sends 0x23 then 0x00 for register 0x2F, the read yields 0x0023 |
| `DriverProperties.WriteChargeCurrent` | Sketch/BQ25723.hpp:151-160 | writing 0x1770 to register 0x02 sends 0x02, 0x70, 0x17 in one transaction |
| `DriverProperties.InitializeNoDevice` | Sketch/BQ25723.hpp:86-89 | on a bus that never acknowledges, `Begin` fails, the driver stays uninitialized, and a later read fails without a call |

## Left out

- Transport internals: timing, clock stretching, time-outs and the meaning of each non-zero `endTransmission` status. The oracle reports only a status and the delivered bytes.
- Device state across transactions: the oracle answers each transaction on its own, so a device whose answers depend on earlier writes is modelled only through `EchoOf`, which is built from one write's calls.
- The `read()` calls that take the two received bytes from the transport's buffer. They are not logged; the model uses the delivered bytes in order.
- Pin routing and `setClock` in `begin`: logged as `Configure` and `SetClock` calls, with no further effect.
- The null checks on `value` and `buffer`. The model has no null references; the buffer is a sequence with at least `count` slots.
- Holding a reference to the `TwoWire` object: the oracle is passed to each operation instead.
- WordBytes.MaskIsRemainder, WordBytes.ShiftIsQuotient, WordBytes.ShiftOrIsSum: proved on 8- and 16-bit bit-vectors only and not formally linked to the integer functions `LowByte`, `HighByte` and `Combine`, because the solver cannot close the conversions between integers and bit-vectors within the resource limit.
