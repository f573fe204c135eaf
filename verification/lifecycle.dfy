/**
 Initialisation of the driver: the optional first slave address, then the
 initial unit.
 */
module Lifecycle {

  import opened Status
  import opened Transport
  import opened DriverState
  import opened AddressManager

  /**
   Initialises the driver. An address above 127 is refused outright. Address 0
   keeps the current address (0x5A after power-on) and only refreshes its wire
   form; any other address must answer a readiness probe and is then adopted.
   The unit code is decoded last: an unrecognised code returns `Failed` after the
   address has already been committed, so this operation is not atomic.
   */
  function Init(d: Driver, bus: Bus, a: Byte, code: int): (r: Outcome)
    ensures a > MaxAddress ==> r == Outcome(Failed, d, [])
    ensures a == 0 ==> r.trace == [] && r.driver.address == d.address && r.driver.wire == Shl1(d.address)
    ensures ValidAddress(a) ==> r.trace == [Probe(2 * a)]
    ensures ValidAddress(a) && !Ready(bus, a) ==> r == Outcome(NoResponse, d, [Probe(2 * a)])
    ensures ValidAddress(a) && Ready(bus, a) ==> r.driver.address == a && r.driver.wire == 2 * a
    ensures r.status == Ok <==> a <= MaxAddress && (a == 0 || Ready(bus, a)) && 0 <= code <= 2
    ensures r.status == Ok ==>
              UnitCode(r.driver.unit) == code && r.driver.converter == ConverterFor(r.driver.unit)
    ensures r.status == Ok && (a != 0 || ValidAddress(d.address)) ==> Consistent(r.driver)
    ensures a <= MaxAddress && (a == 0 || Ready(bus, a)) && !(0 <= code <= 2) ==>
              && r.status == Failed
              && r.driver.unit == d.unit
              && r.driver.converter == d.converter
  {
    if a > 0x7F then Outcome(Failed, d, [])
    else if a != 0 && bus.isReady(Shl1(a)) != HalOk then Outcome(NoResponse, d, [Probe(Shl1(a))])
    else
      var (committed, trace) :=
        if a != 0 then (d.(address := a, wire := Shl1(a)), [Probe(Shl1(a))])
        else (d.(wire := Shl1(d.address)), []);
      match UnitOfCode(code)
      case None => Outcome(Failed, committed, trace)
      case Some(u) => Outcome(Ok, committed.(unit := u, converter := ConverterFor(u)), trace)
  }
}
