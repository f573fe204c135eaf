/**
 Properties that relate several operations of the driver: the consistency
 invariant every public operation keeps, atomicity on failure, and the outcomes
 the driver's usage example asserts.
 */
module DriverProperties {

  import opened Status
  import opened Transport
  import opened DriverState
  import opened AddressManager
  import opened TemperatureReader
  import opened Lifecycle

  /** A public state-changing operation of the driver, with its arguments. */
  datatype Command =
    | InitCmd(address: Byte, code: int)
    | FindCmd
    | SetModuleAddressCmd(address: Byte)
    | SetDeviceAddressCmd(address: Byte)
    | SetTemperatureTypeCmd(code: int)

  /** One call, together with the bus as it answers during that call. */
  datatype Step = Step(command: Command, bus: Bus)

  /** Performs one call. */
  function Apply(d: Driver, s: Step): Outcome {
    match s.command
    case InitCmd(a, code) => Init(d, s.bus, a, code)
    case FindCmd => Find(d, s.bus)
    case SetModuleAddressCmd(a) => SetModuleAddress(d, s.bus, a)
    case SetDeviceAddressCmd(a) => SetDeviceAddress(d, s.bus, a)
    case SetTemperatureTypeCmd(code) => SetTemperatureType(d, code)
  }

  /** The state after performing the calls in order, whatever each of them reports. */
  function Run(d: Driver, steps: seq<Step>): Driver
    decreases |steps|
  {
    if |steps| == 0 then d else Run(Apply(d, steps[0]).driver, steps[1..])
  }

  /**
   The power-on state: the factory address 0x5A, a zero wire form, the zero unit
   code (Kelvin) and no conversion routine. It is not yet consistent; a successful
   initialisation makes it so.
   */
  lemma PowerOnState()
    ensures GetModuleAddress(PowerOn) == 0x5A
    ensures PowerOn.wire == 0
    ensures GetTemperatureType(PowerOn) == 0
    ensures PowerOn.converter == NoConverter
    ensures !Consistent(PowerOn)
  {
  }

  /**
   Reading a channel before any unit was installed completes normally when the
   read fails: the failure is reported and no conversion routine is needed.
   */
  lemma FailedReadBeforeInit(bus: Bus, c: Channel)
    requires bus.memRead(PowerOn.wire, Register(c)).status != HalOk
    ensures ReadTemperature(PowerOn, bus, c).status == MapHal(bus.memRead(PowerOn.wire, Register(c)).status)
    ensures ReadTemperature(PowerOn, bus, c).status != Ok
    ensures ReadTemperature(PowerOn, bus, c).value.None?
  {
  }

  /** Every call, successful or not, keeps the address valid, its wire form doubled and the routine matching the unit. */
  lemma StepKeepsConsistent(d: Driver, s: Step)
    requires Consistent(d)
    ensures Consistent(Apply(d, s).driver)
  {
  }

  /** Any sequence of calls from a consistent state ends in a consistent state. */
  lemma {:induction false} RunKeepsConsistent(d: Driver, steps: seq<Step>)
    requires Consistent(d)
    ensures Consistent(Run(d, steps))
    decreases |steps|
  {
    if |steps| != 0 {
      StepKeepsConsistent(d, steps[0]);
      RunKeepsConsistent(Apply(d, steps[0]).driver, steps[1..]);
    }
  }

  /**
   After a successful initialisation from power-on, whatever calls follow, the
   wire address is twice the believed address and the routine matches the unit.
   */
  lemma InitThenRunConsistent(bus: Bus, a: Byte, code: int, steps: seq<Step>)
    requires Init(PowerOn, bus, a, code).status == Ok
    ensures Consistent(Run(Init(PowerOn, bus, a, code).driver, steps))
  {
    RunKeepsConsistent(Init(PowerOn, bus, a, code).driver, steps);
  }

  /** Every call other than initialisation leaves the state untouched when it does not succeed. */
  lemma FailureChangesNothing(d: Driver, s: Step)
    requires !s.command.InitCmd?
    ensures Apply(d, s).status != Ok ==> Apply(d, s).driver == d
  {
  }

  /**
   Initialisation is not atomic: with address 0 and an unrecognised unit code it
   returns `Failed` yet has already rewritten the wire address.
   */
  lemma InitNotAtomic(bus: Bus, code: int)
    requires !(0 <= code <= 2)
    ensures Init(PowerOn, bus, 0, code).status == Failed
    ensures Init(PowerOn, bus, 0, code).driver != PowerOn
    ensures Init(PowerOn, bus, 0, code).driver == PowerOn.(wire := 2 * DefaultAddress)
  {
  }

  /** Initialising with address 0 keeps the factory address 0x5A and issues no bus transaction. */
  lemma InitKeepsDefaultAddress(bus: Bus, u: Unit)
    ensures Init(PowerOn, bus, 0, UnitCode(u)) == Outcome(Ok, Driver(0x5A, 0xB4, u, ConverterFor(u)), [])
  {
  }

  /** Initialising with an address of 128 or more is refused and changes nothing. */
  lemma InitRejectsWideAddress(d: Driver, bus: Bus, a: Byte, code: int)
    requires a >= 128
    ensures Init(d, bus, a, code) == Outcome(Failed, d, [])
  {
  }

  /** Asking for address 128 fails, and the address reported afterwards is still the previous one. */
  lemma InvalidAddressKeepsAddress(d: Driver, bus: Bus)
    ensures SetModuleAddress(d, bus, 128).status == Failed
    ensures GetModuleAddress(SetModuleAddress(d, bus, 128).driver) == GetModuleAddress(d)
    ensures SetModuleAddress(d, bus, 128).trace == []
  {
  }

  /** Asking for a valid address at which nothing answers reports no response. */
  lemma SilentAddressNotResponding(d: Driver, bus: Bus, a: Byte)
    requires ValidAddress(a) && !Ready(bus, a)
    ensures SetModuleAddress(d, bus, a).status == NoResponse
    ensures GetModuleAddress(SetModuleAddress(d, bus, a).driver) == GetModuleAddress(d)
  {
  }

  /** On a bus with a single device at `k`, discovery adopts exactly `k` after probing 1 to `k`. */
  lemma FindSingleDevice(d: Driver, bus: Bus, k: Byte)
    requires ValidAddress(k)
    requires forall a: Byte :: ValidAddress(a) ==> (Ready(bus, a) <==> a == k)
    ensures Find(d, bus).status == Ok
    ensures Find(d, bus).driver == d.(address := k, wire := 2 * k)
    ensures |Find(d, bus).trace| == k
  {
    assert Ready(bus, k);
  }

  /** On a silent bus, discovery reports no response after probing all 127 addresses and changes nothing. */
  lemma FindSilentBus(d: Driver, bus: Bus)
    requires forall a: Byte :: ValidAddress(a) ==> !Ready(bus, a)
    ensures Find(d, bus) == Outcome(NoResponse, d, Find(d, bus).trace)
    ensures |Find(d, bus).trace| == 127
  {
  }

  /** After a successful unit selection the driver reports the selected unit, for each of the three units. */
  lemma SetThenGetUnit(d: Driver, u: Unit)
    ensures SetTemperatureType(d, UnitCode(u)).status == Ok
    ensures GetTemperatureType(SetTemperatureType(d, UnitCode(u)).driver) == UnitCode(u)
  {
  }

  /** In a consistent state a successful reading is converted with the formula of the selected unit. */
  lemma ReadingUsesSelectedUnit(d: Driver, bus: Bus, c: Channel)
    requires Consistent(d)
    ensures var reply := bus.memRead(d.wire, Register(c));
            ReadTemperature(d, bus, c).status == Ok ==>
              ReadTemperature(d, bus, c).value.value == Convert(d.unit, RawOf(reply.lo, reply.hi))
  {
  }

  /** A refused unit selection leaves every later reading exactly as it would have been. */
  lemma RefusedUnitKeepsReadings(d: Driver, bus: Bus, code: int, c: Channel)
    requires ConverterNeeded(d, bus, c) ==> d.converter.ConverterFor?
    requires !(0 <= code <= 2)
    ensures SetTemperatureType(d, code).status == Failed
    ensures ReadTemperature(SetTemperatureType(d, code).driver, bus, c) == ReadTemperature(d, bus, c)
  {
  }

  /** A reading whose error flag is raised fails whatever unit is selected, and stores nothing. */
  lemma ErrorFlagFailsInEveryUnit(d: Driver, bus: Bus, c: Channel)
    requires bus.memRead(d.wire, Register(c)).status == HalOk
    requires ErrorFlag(RawOf(bus.memRead(d.wire, Register(c)).lo, bus.memRead(d.wire, Register(c)).hi))
    ensures ReadTemperature(d, bus, c).status == Failed
    ensures ReadTemperature(d, bus, c).value.None?
  {
    ErrorFlagIsHighBit(bus.memRead(d.wire, Register(c)).lo, bus.memRead(d.wire, Register(c)).hi);
  }

  /** A failed erase ends the rewrite: the new address is never written. */
  lemma FailedEraseStopsRewrite(d: Driver, bus: Bus, a: Byte)
    requires ValidAddress(a)
    requires EraseStatus(bus) != Ok
    ensures SetDeviceAddress(d, bus, a).trace == [EraseWrite()]
    ensures AddressWrite(a) !in SetDeviceAddress(d, bus, a).trace
    ensures SetDeviceAddress(d, bus, a).driver == d
  {
  }

  /** A rewrite that wrote the new address had erased the cell successfully first. */
  lemma WriteFollowsSuccessfulErase(d: Driver, bus: Bus, a: Byte)
    requires ValidAddress(a)
    requires AddressWrite(a) in SetDeviceAddress(d, bus, a).trace
    ensures EraseStatus(bus) == Ok
    ensures SetDeviceAddress(d, bus, a).trace[0] == EraseWrite()
    ensures SetDeviceAddress(d, bus, a).trace[2] == AddressWrite(a)
  {
  }
}
