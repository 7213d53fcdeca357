/** The Python exceptions raised along the modelled paths of the B1520A driver, as values. */
module Errors {
  /** The type a learn-query field or a sweep value is converted to. */
  datatype Kind = IntKind | FloatKind

  datatype Error =
    | ValueError(msg: string)                  // raised by the driver with this message
    | ConversionError(kind: Kind, text: string) // the ValueError of int() or float() on `text`
    | AssertionError(msg: string)              // the polarity assertion of the log sweeps
    | KeyError(key: int)                       // a sweep mode missing from the mode table
    | Warning(msg: string)                     // the driver's refusals of an out-of-order call
}
