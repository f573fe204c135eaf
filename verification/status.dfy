/**
 Status codes of the driver and the single mapping that turns an outcome of the
 vendor HAL's I2C calls into one of them.
 */
module Status {

  /** Outcome of a vendor HAL I2C call (the HAL's own enumeration and values). */
  datatype HalStatus = HalOk | HalError | HalBusy | HalTimeout {

    /** Numeric value of the HAL enumeration. */
    function Code(): nat {
      match this
      case HalOk => 0
      case HalError => 1
      case HalBusy => 2
      case HalTimeout => 3
    }
  }

  /** Status codes returned by every fallible operation of the driver. */
  datatype Status = Ok | Stop | NoResponse | NotApplicable | Failed {

    /** Numeric value the driver's header assigns to each code. */
    function Code(): nat {
      match this
      case Ok => 0
      case Stop => 1
      case NoResponse => 2
      case NotApplicable => 3
      case Failed => 4
    }
  }

  /** Reads a numeric value back as a driver status code. */
  function OfCode(c: nat): (s: Status)
    requires c <= 4
    ensures s.Code() == c
  {
    if c == 0 then Ok
    else if c == 1 then Stop
    else if c == 2 then NoResponse
    else if c == 3 then NotApplicable
    else Failed
  }

  /** Distinct status codes have distinct numbers, so `OfCode` inverts `Code`. */
  lemma OfCodeInvertsCode(s: Status)
    ensures OfCode(s.Code()) == s
  {
  }

  /**
   The status mapping applied after every memory transaction: busy and timeout
   become "no response", a protocol error becomes "failed", and anything else is
   passed through numerically, which for HAL_OK yields the driver's OK code.
   */
  function MapHal(h: HalStatus): (s: Status)
    ensures s == Ok <==> h == HalOk
    ensures s == NoResponse <==> (h == HalBusy || h == HalTimeout)
    ensures s == Failed <==> h == HalError
    ensures s != Stop && s != NotApplicable
    ensures h == HalOk ==> s.Code() == h.Code()
  {
    match h
    case HalBusy => NoResponse
    case HalTimeout => NoResponse
    case HalError => Failed
    case HalOk => OfCode(h.Code())
  }
}
