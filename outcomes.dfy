/**
 * Values shared by the whole model: optional values, the three states of a
 * key in an input dictionary, and the exceptions the calculator can raise.
 */
module Outcomes {

  /** A value that may be `None`. */
  datatype Option<+T> = None | Some(value: T)

  /**
   * One key of an input dictionary: the key may be missing (`Absent`),
   * present with the value `None` (`Null`), or present with a value.
   */
  datatype Entry<+T> = Absent | Null | Given(value: T) {

    /** What `dict.get(key)` yields: a missing key and a `None` value look alike. */
    function Get(): (r: Option<T>)
      ensures r.Some? <==> Given?
    {
      match this
      case Given(v) => Some(v)
      case _ => None
    }
  }

  /** The validation checks that raise `ValueError`, one per check in the source. */
  datatype Check =
    | AreaNotPositive
    | NoUValueSource
    | NoCorrectionFactorSource
    | VolumeNotPositive
    | NoExternalTemperature
    | NoInternalTemperatureSource
    | NoBuildingElements
    | InternalTemperatureKeysAbsent
    | ThermalBridgeKeysAbsent
    | AirChangeKeysAbsent

  /** The causes of a `TypeError`. */
  datatype TypeFault =
    | BuildYearNotInt     // the explicit isinstance check on an element's build year
    | YearNotOrderable    // comparing a `None` build year with a band boundary
    | NoneOperand         // arithmetic on a `None` value, such as an undefined U-value cell

  /** The exceptions the calculator raises. */
  datatype Error =
    | KeyError(key: string)
    | TypeError(fault: TypeFault)
    | ValueError(check: Check)

  /** The outcome of a computation that may raise. */
  datatype Result<+T> = Ok(value: T) | Err(error: Error)
}
