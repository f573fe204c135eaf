/**
 Temperature readings: the three RAM channels of the sensor, the unit
 selection, and the conversion of a raw reading into the selected unit.
 */
module TemperatureReader {

  import opened Wrappers
  import opened Status
  import opened Transport
  import opened DriverState

  /** The three temperature channels the sensor exposes in RAM. */
  datatype Channel = Ambient | Object1 | Object2

  /** RAM register of each channel. */
  function Register(c: Channel): Byte {
    match c
    case Ambient => 0x06
    case Object1 => 0x07
    case Object2 => 0x08
  }

  /** Distinct channels are read from distinct registers. */
  lemma RegistersDistinct(c1: Channel, c2: Channel)
    ensures Register(c1) == Register(c2) <==> c1 == c2
  {
  }

  /** The 16-bit raw word of a reading, reassembled from its two bytes, low byte first. */
  function RawOf(lo: Byte, hi: Byte): (raw: int)
    ensures 0 <= raw < 0x1_0000
    ensures raw % 256 == lo && raw / 256 == hi
  {
    hi * 256 + lo
  }

  /** The sensor flags an erroneous reading with a raw word above 0x7FFF. */
  predicate ErrorFlag(raw: int) {
    raw > 0x7FFF
  }

  /** The error flag is bit 15 of the raw word, that is, bit 7 of the high byte. */
  lemma ErrorFlagIsHighBit(lo: Byte, hi: Byte)
    ensures ErrorFlag(RawOf(lo, hi)) <==> hi >= 0x80
  {
  }

  /**
   The conversion routine of each unit, over the reals: the sensor counts in
   steps of 0.02 K. The driver computes these in single-precision floating point.
   Each result determines the raw word it came from.
   */
  function Convert(u: Unit, raw: int): (t: real)
    ensures u == Kelvin ==> t * 50.0 == raw as real
    ensures u == Celsius ==> (t + 273.15) * 50.0 == raw as real
    ensures u == Fahrenheit ==> ((t - 32.0) / 1.8 + 273.15) * 50.0 == raw as real
  {
    match u
    case Kelvin => raw as real / 50.0
    case Celsius => raw as real / 50.0 - 273.15
    case Fahrenheit => (raw as real / 50.0 - 273.15) * 1.8 + 32.0
  }

  /** Every conversion is strictly increasing in the raw word, so no two raw words convert alike. */
  lemma ConvertStrictlyIncreasing(u: Unit, raw1: int, raw2: int)
    requires raw1 < raw2
    ensures Convert(u, raw1) < Convert(u, raw2)
  {
  }

  /** The result of a temperature read: status, the value stored for the caller if any, and the transaction. */
  datatype Reading = Reading(status: Status, value: Option<real>, trace: seq<Event>)

  /**
   The driver calls its conversion routine only for a successful read whose
   error flag is clear; the failure paths never touch it.
   */
  predicate ConverterNeeded(d: Driver, bus: Bus, c: Channel) {
    var reply := bus.memRead(d.wire, Register(c));
    reply.status == HalOk && reply.hi < 0x80
  }

  /**
   Reads one channel: a two-byte read of the channel's register at the driver's
   wire address. A transport failure returns its mapped status, a raised error
   flag returns `Failed`, and only otherwise is the raw word converted by the
   installed routine and stored for the caller. The driver's state is not changed.
   */
  function ReadTemperature(d: Driver, bus: Bus, c: Channel): (r: Reading)
    requires ConverterNeeded(d, bus, c) ==> d.converter.ConverterFor?
    ensures r.trace == [MemRead(d.wire, Register(c), TransferSize)]
    ensures r.status == Ok || r.status == NoResponse || r.status == Failed
    ensures r.value.Some? <==> r.status == Ok
    ensures var reply := bus.memRead(d.wire, Register(c));
            r.status == Ok <==> reply.status == HalOk && reply.hi < 0x80
    ensures var reply := bus.memRead(d.wire, Register(c));
            reply.status != HalOk ==> r.status == MapHal(reply.status)
    ensures var reply := bus.memRead(d.wire, Register(c));
            reply.status == HalOk && reply.hi >= 0x80 ==> r.status == Failed
    ensures var reply := bus.memRead(d.wire, Register(c));
            r.status == Ok ==> r.value == Some(Convert(d.converter.unit, RawOf(reply.lo, reply.hi)))
  {
    var reply := bus.memRead(d.wire, Register(c));
    var trace := [MemRead(d.wire, Register(c), TransferSize)];
    var status := MapHal(reply.status);
    if status != Ok then Reading(status, None, trace)
    else
      var raw := RawOf(reply.lo, reply.hi);
      if raw > 0x7FFF then Reading(Failed, None, trace)
      else Reading(Ok, Some(Convert(d.converter.unit, raw)), trace)
  }

  /** Ambient temperature: the common reader on register 0x06, to which it delegates, since the channels differ only in their register. */
  function AmbientTemperature(d: Driver, bus: Bus): (r: Reading)
    requires ConverterNeeded(d, bus, Ambient) ==> d.converter.ConverterFor?
    ensures r.trace == [MemRead(d.wire, 0x06, TransferSize)]
    ensures r == ReadTemperature(d, bus, Ambient)
  {
    ReadTemperature(d, bus, Ambient)
  }

  /** Object 1 temperature: the common reader on register 0x07, to which it delegates, since the channels differ only in their register. */
  function Object1Temperature(d: Driver, bus: Bus): (r: Reading)
    requires ConverterNeeded(d, bus, Object1) ==> d.converter.ConverterFor?
    ensures r.trace == [MemRead(d.wire, 0x07, TransferSize)]
    ensures r == ReadTemperature(d, bus, Object1)
  {
    ReadTemperature(d, bus, Object1)
  }

  /** Object 2 temperature: the common reader on register 0x08, to which it delegates, since the channels differ only in their register. */
  function Object2Temperature(d: Driver, bus: Bus): (r: Reading)
    requires ConverterNeeded(d, bus, Object2) ==> d.converter.ConverterFor?
    ensures r.trace == [MemRead(d.wire, 0x08, TransferSize)]
    ensures r == ReadTemperature(d, bus, Object2)
  {
    ReadTemperature(d, bus, Object2)
  }

  /** The unit code the driver currently reports in. */
  function GetTemperatureType(d: Driver): (code: nat)
    ensures UnitOfCode(code) == Some(d.unit)
    ensures code <= 2
  {
    UnitCode(d.unit)
  }

  /**
   Selects the unit of later readings. A recognised code installs the unit and
   its routine together; any other code returns `Failed` and changes nothing.
   */
  function SetTemperatureType(d: Driver, code: int): (r: Outcome)
    ensures r.trace == []
    ensures r.status == Ok <==> 0 <= code <= 2
    ensures r.status != Ok ==> r.status == Failed && r.driver == d
    ensures r.status == Ok ==>
              && UnitCode(r.driver.unit) == code
              && r.driver.converter == ConverterFor(r.driver.unit)
              && r.driver.address == d.address
              && r.driver.wire == d.wire
  {
    match UnitOfCode(code)
    case None => Outcome(Failed, d, [])
    case Some(u) => Outcome(Ok, d.(unit := u, converter := ConverterFor(u)), [])
  }
}
