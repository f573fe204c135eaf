/**
 The driver's state: the believed 7-bit slave address, its cached wire form,
 the selected temperature unit and the conversion routine currently installed.
 */
module DriverState {

  import opened Wrappers
  import opened Status
  import opened Transport

  /** Factory slave address of the sensor. */
  const DefaultAddress: Byte := 0x5A
  /** Largest valid 7-bit slave address. */
  const MaxAddress: Byte := 0x7F

  /** Slave addresses the setters accept: 1 to 127. */
  predicate ValidAddress(a: int) {
    1 <= a <= MaxAddress
  }

  /** Temperature units the driver can report in. */
  datatype Unit = Kelvin | Celsius | Fahrenheit

  /** Numeric value of the unit enumeration. */
  function UnitCode(u: Unit): nat {
    match u
    case Kelvin => 0
    case Celsius => 1
    case Fahrenheit => 2
  }

  /** Decodes a unit code; any value other than 0, 1 and 2 is not recognised. */
  function UnitOfCode(code: int): (r: Option<Unit>)
    ensures r.Some? <==> 0 <= code <= 2
    ensures r.Some? ==> UnitCode(r.value) == code
  {
    if code == 0 then Some(Kelvin)
    else if code == 1 then Some(Celsius)
    else if code == 2 then Some(Fahrenheit)
    else None
  }

  /** Decoding the code of a unit gives the unit back. */
  lemma UnitCodeRoundTrip(u: Unit)
    ensures UnitOfCode(UnitCode(u)) == Some(u)
  {
  }

  /**
   The conversion routine the driver dispatches to: unset before the first
   successful unit selection, otherwise the routine of one unit.
   */
  datatype Converter = NoConverter | ConverterFor(unit: Unit)

  datatype Driver = Driver(address: Byte, wire: Byte, unit: Unit, converter: Converter)

  /** The state before any call: default address, zeroed wire form and unit, no routine. */
  const PowerOn: Driver := Driver(DefaultAddress, 0, Kelvin, NoConverter)

  /**
   The state every operation keeps once the driver is initialised: a valid
   address whose wire form is twice its value, and a routine matching the unit.
   */
  predicate Consistent(d: Driver) {
    && ValidAddress(d.address)
    && d.wire == 2 * d.address
    && d.converter == ConverterFor(d.unit)
  }

  /** What an operation reports: its status, the state after it and the transactions it issued. */
  datatype Outcome = Outcome(status: Status, driver: Driver, trace: seq<Event>)
}
