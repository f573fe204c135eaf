/**
 Everything the driver does with slave addresses: discovery by linear probing,
 changing the address the driver uses, and rewriting the address stored in the
 sensor's EEPROM.
 */
module AddressManager {

  import opened Wrappers
  import opened Status
  import opened Transport
  import opened DriverState

  /** Wire address every sensor answers to between an EEPROM address change and its power cycle. */
  const AnySlaveWire: Byte := 0x00
  /** EEPROM register holding the sensor's slave address. */
  const SlaveAddressRegister: Byte := 0x2E
  /** Value written to erase the slave-address cell. */
  const EraseValue: Byte := 0x00

  /** A device answers the readiness probe at slave address `a`. */
  predicate Ready(bus: Bus, a: Byte) {
    bus.isReady(Shl1(a)) == HalOk
  }

  /** `a` is the lowest valid slave address at which a device answers. */
  predicate LeastReady(bus: Bus, a: Byte) {
    && ValidAddress(a)
    && Ready(bus, a)
    && forall b: Byte :: 1 <= b < a ==> !Ready(bus, b)
  }

  /** The slave address the driver currently uses. */
  function GetModuleAddress(d: Driver): (a: Byte)
    ensures Consistent(d) ==> ValidAddress(a) && Shl1(a) == d.wire
  {
    d.address
  }

  /** Result of probing a range of addresses: the first one that answered, and the probes issued. */
  datatype ScanResult = ScanResult(found: Option<Byte>, trace: seq<Event>)

  /**
   Probes the addresses `from` to 127 in ascending order and stops at the first
   one that answers.
   */
  function ScanFrom(bus: Bus, from: int): (r: ScanResult)
    requires 1 <= from <= 128
    ensures r.found.Some? ==> from <= r.found.value <= MaxAddress && Ready(bus, r.found.value)
    ensures r.found.Some? ==> forall b: Byte :: from <= b < r.found.value ==> !Ready(bus, b)
    ensures r.found.None? ==> forall b: Byte :: from <= b <= MaxAddress ==> !Ready(bus, b)
    ensures |r.trace| == if r.found.Some? then r.found.value - from + 1 else 128 - from
    ensures forall i :: 0 <= i < |r.trace| ==> r.trace[i] == Probe(2 * (from + i))
    decreases 128 - from
  {
    if from == 128 then ScanResult(None, [])
    else
      var wire := Shl1(from);
      if bus.isReady(wire) == HalOk then ScanResult(Some(from), [Probe(wire)])
      else
        var rest := ScanFrom(bus, from + 1);
        ScanResult(rest.found, [Probe(wire)] + rest.trace)
  }

  /**
   Looks for a device by probing every slave address from 1 to 127 (never the
   general-call address 0) and adopts the first one that answers. When nothing
   answers the state is left as it was.
   */
  function Find(d: Driver, bus: Bus): (r: Outcome)
    ensures r.status == Ok || r.status == NoResponse
    ensures r.status == Ok <==> exists a: Byte :: ValidAddress(a) && Ready(bus, a)
    ensures r.status == Ok ==> LeastReady(bus, r.driver.address)
    ensures r.status == Ok ==> r.driver == d.(address := r.driver.address, wire := 2 * r.driver.address)
    ensures r.status == Ok ==> |r.trace| == r.driver.address
    ensures r.status == NoResponse ==> r.driver == d && |r.trace| == MaxAddress
    ensures forall i :: 0 <= i < |r.trace| ==> r.trace[i] == Probe(2 * (i + 1))
  {
    var scan := ScanFrom(bus, 1);
    match scan.found
    case Some(a) => Outcome(Ok, d.(address := a, wire := Shl1(a)), scan.trace)
    case None => Outcome(NoResponse, d, scan.trace)
  }

  /** The discovery loop written the way the driver runs it: one probe per iteration. */
  method FindSlaveAddress(d: Driver, bus: Bus) returns (r: Outcome)
    ensures r == Find(d, bus)
  {
    var current: Byte := 1;
    var trace: seq<Event> := [];
    while current < 128
      invariant 1 <= current <= 128
      invariant ScanFrom(bus, 1).found == ScanFrom(bus, current).found
      invariant ScanFrom(bus, 1).trace == trace + ScanFrom(bus, current).trace
      decreases 128 - current
    {
      var wire := Shl1(current);
      trace := trace + [Probe(wire)];
      if bus.isReady(wire) == HalOk {
        return Outcome(Ok, d.(address := current, wire := wire), trace);
      }
      current := current + 1;
    }
    return Outcome(NoResponse, d, trace);
  }

  /**
   Makes the driver use slave address `a`, provided it is valid and a device
   answers there; on either failure the state is left as it was.
   */
  function SetModuleAddress(d: Driver, bus: Bus, a: Byte): (r: Outcome)
    ensures !ValidAddress(a) ==> r == Outcome(Failed, d, [])
    ensures ValidAddress(a) ==> r.trace == [Probe(2 * a)]
    ensures r.status == Ok <==> ValidAddress(a) && Ready(bus, a)
    ensures ValidAddress(a) && !Ready(bus, a) ==> r.status == NoResponse
    ensures r.status == Ok ==> r.driver == d.(address := a, wire := 2 * a)
    ensures r.status != Ok ==> r.driver == d
  {
    if a > 0x7F || a == 0 then Outcome(Failed, d, [])
    else
      var wire := Shl1(a);
      if bus.isReady(wire) != HalOk then Outcome(NoResponse, d, [Probe(wire)])
      else Outcome(Ok, d.(address := a, wire := wire), [Probe(wire)])
  }

  /** The erase transaction of the EEPROM rewrite: both bytes of the cell set to zero. */
  function EraseWrite(): Event {
    MemWrite(AnySlaveWire, SlaveAddressRegister, [EraseValue, EraseValue])
  }

  /** The write transaction of the EEPROM rewrite: the new address, then a zero byte. */
  function AddressWrite(a: Byte): Event {
    MemWrite(AnySlaveWire, SlaveAddressRegister, [a, EraseValue])
  }

  /** The verify read of the EEPROM rewrite. */
  function VerifyRead(): Event {
    MemRead(AnySlaveWire, SlaveAddressRegister, TransferSize)
  }

  /** Every step of a complete EEPROM rewrite of the slave address, in order. */
  function RewriteSteps(a: Byte): seq<Event> {
    [EraseWrite(), Delay(EraseOrWriteCellTimeMs), AddressWrite(a), Delay(EraseOrWriteCellTimeMs), VerifyRead()]
  }

  /** Mapped status of the erase transaction on `bus`. */
  function EraseStatus(bus: Bus): Status {
    MapHal(bus.memWrite(AnySlaveWire, SlaveAddressRegister, [EraseValue, EraseValue]))
  }

  /** Mapped status of the write transaction on `bus`. */
  function WriteStatus(bus: Bus, a: Byte): Status {
    MapHal(bus.memWrite(AnySlaveWire, SlaveAddressRegister, [a, EraseValue]))
  }

  /** Reply to the verify read on `bus`. */
  function VerifyReply(bus: Bus): ReadReply {
    bus.memRead(AnySlaveWire, SlaveAddressRegister)
  }

  /**
   Rewrites the slave address stored in the sensor's EEPROM: erase the cell,
   wait, write the new address, wait, read the cell back. The first transaction
   whose mapped status is not OK ends the call with that status; a read-back
   whose low byte differs from `a` ends it with `Failed`. Only a complete,
   verified rewrite changes the driver's state.
   */
  function SetDeviceAddress(d: Driver, bus: Bus, a: Byte): (r: Outcome)
    ensures !ValidAddress(a) ==> r == Outcome(Failed, d, [])
    ensures ValidAddress(a) ==> 0 < |r.trace| <= |RewriteSteps(a)| && r.trace == RewriteSteps(a)[..|r.trace|]
    ensures r.status != Ok ==> r.driver == d
    ensures r.status == Ok <==>
              && ValidAddress(a)
              && EraseStatus(bus) == Ok
              && WriteStatus(bus, a) == Ok
              && MapHal(VerifyReply(bus).status) == Ok
              && VerifyReply(bus).lo == a
    ensures r.status == Ok ==> r.driver == d.(address := a, wire := 2 * a) && r.trace == RewriteSteps(a)
    ensures ValidAddress(a) && EraseStatus(bus) != Ok ==>
              r.status == EraseStatus(bus) && |r.trace| == 1
    ensures ValidAddress(a) && EraseStatus(bus) == Ok && WriteStatus(bus, a) != Ok ==>
              r.status == WriteStatus(bus, a) && |r.trace| == 3
    ensures ValidAddress(a) && EraseStatus(bus) == Ok && WriteStatus(bus, a) == Ok ==>
              |r.trace| == 5
    ensures ValidAddress(a) && EraseStatus(bus) == Ok && WriteStatus(bus, a) == Ok
            && MapHal(VerifyReply(bus).status) != Ok ==>
              r.status == MapHal(VerifyReply(bus).status)
    ensures ValidAddress(a) && EraseStatus(bus) == Ok && WriteStatus(bus, a) == Ok
            && MapHal(VerifyReply(bus).status) == Ok && VerifyReply(bus).lo != a ==>
              r.status == Failed
  {
    if a > 0x7F || a == 0 then Outcome(Failed, d, [])
    else
      var erase := MapHal(bus.memWrite(AnySlaveWire, SlaveAddressRegister, [EraseValue, EraseValue]));
      var t1 := [MemWrite(AnySlaveWire, SlaveAddressRegister, [EraseValue, EraseValue])];
      if erase != Ok then Outcome(erase, d, t1)
      else
        var write := MapHal(bus.memWrite(AnySlaveWire, SlaveAddressRegister, [a, EraseValue]));
        var t2 := t1 + [Delay(EraseOrWriteCellTimeMs), MemWrite(AnySlaveWire, SlaveAddressRegister, [a, EraseValue])];
        if write != Ok then Outcome(write, d, t2)
        else
          var reply := bus.memRead(AnySlaveWire, SlaveAddressRegister);
          var read := MapHal(reply.status);
          var t3 := t2 + [Delay(EraseOrWriteCellTimeMs), MemRead(AnySlaveWire, SlaveAddressRegister, TransferSize)];
          if read != Ok then Outcome(read, d, t3)
          else if reply.lo != a then Outcome(Failed, d, t3)
          else Outcome(Ok, d.(address := a, wire := Shl1(a)), t3)
  }
}
