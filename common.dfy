/** Values shared by every part of the model: optional values, and the
    Python exceptions the writers and the ray-file reader raise. */
module Common {
  datatype Option<T> = None | Some(value: T)

  /** The exceptions the core raises.  The writers' own checks raise
      `ValueError`; indexing past the end of a string, list or file raises
      `IndexError`; `len()` of an attribute left at its `None` default
      raises `TypeError`. */
  datatype Error = ValueError(message: Message) | IndexError | TypeError

  /** The `ValueError` messages of the core, by kind. */
  datatype Message =
    | SpeedsMismatch   // the writers' SSP length check
    | RangesMismatch   // the writers' bathymetry and altimetry length checks
    | ZeroSizeMax      // `np.max` of an empty array
    | FloatConversion  // `float()` of a malformed string
    | IntConversion    // `int()` of a malformed string
    | UnpackCount      // tuple unpacking with the wrong number of values

  /** The text Python prints for each message. */
  function MessageText(m: Message): string {
    match m
    case SpeedsMismatch => "Depths and speeds must have the same length."
    case RangesMismatch => "ranges_km and depths_m must be the same length."
    case ZeroSizeMax => "zero-size array to reduction operation maximum which has no identity"
    case FloatConversion => "could not convert string to float"
    case IntConversion => "invalid literal for int() with base 10"
    case UnpackCount => "wrong number of values to unpack"
  }

  /** The result of a call that returns nothing in the source: it either
      completes or raises. */
  datatype Outcome = Done | Raised(error: Error)

  /** The result of a call that returns a value or raises. */
  datatype Result<T> = Ok(value: T) | Err(error: Error)
}
