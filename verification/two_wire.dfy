/**
 * The two-wire (I2C) transport as the driver sees it: a log of the calls it
 * makes on the transport, and an oracle that answers them.
 *
 * The transport's internals (timing, clock stretching, time-outs, the
 * meaning of each non-zero status) are not modelled. The oracle only says
 * which status a closed transaction reports (0 means every byte was
 * acknowledged) and which bytes the device delivers when two are requested
 * after a register was selected.
 */
module TwoWireBus {
  import opened WordBytes
  import opened Results

  /** One call the driver makes on the transport. */
  datatype Event =
    | Configure(pins: Option<(int, int)>)   // `begin(sda, scl)` when given, else `begin()`
    | SetClock(hz: nat)                     // `setClock(hz)`
    | BeginTransmission(address: Byte)      // start of an outgoing transaction
    | WriteByte(b: Byte)                    // one payload byte queued for the transaction
    | EndTransmission(stop: bool)           // close, releasing the bus only if `stop`
    | RequestFrom(address: Byte, count: nat) // ask the device for `count` bytes

  /**
   * The transport and the device behind it, as an oracle.
   * `status(address, payload, stop)` is what closing an outgoing transaction
   * to `address` carrying `payload` reports; `reply(address, reg)` is the
   * bytes the device at `address` delivers when two bytes are requested right
   * after register `reg` was selected.
   */
  datatype TwoWire = TwoWire(
    status: (Byte, seq<Byte>, bool) -> nat,
    reply: (Byte, Byte) -> seq<Byte>)

  /** The calls made and the status reported by one outgoing transaction. */
  datatype Transmission = Transmission(events: seq<Event>, status: nat)

  /** Events that queue each byte of `payload`, in order. */
  function WriteBytes(payload: seq<Byte>): (es: seq<Event>)
    ensures |es| == |payload|
    ensures forall i :: 0 <= i < |payload| ==> es[i] == WriteByte(payload[i])
  {
    if |payload| == 0 then [] else [WriteByte(payload[0])] + WriteBytes(payload[1..])
  }

  /**
   * One outgoing transaction: begin addressed to `address`, queue `payload`,
   * close with or without a stop; its success is a zero status.
   */
  function Transmit(bus: TwoWire, address: Byte, payload: seq<Byte>, stop: bool): (t: Transmission)
    ensures |t.events| == |payload| + 2
    ensures t.events[0] == BeginTransmission(address)
    ensures t.events[1..|payload| + 1] == WriteBytes(payload)
    ensures t.events[|payload| + 1] == EndTransmission(stop)
    ensures t.status == bus.status(address, payload, stop)
  {
    Transmission([BeginTransmission(address)] + WriteBytes(payload) + [EndTransmission(stop)],
                 bus.status(address, payload, stop))
  }
}
