/** Failure-carrying datatypes shared by every module of the model. */
module Wrappers {

  /** An optional value: Go's nil or "no row" becomes None. */
  datatype Option<+T> = None | Some(value: T)

  /** The outcome of an operation that either yields a value or fails with an error. */
  datatype Result<+T, +E> = Success(value: T) | Failure(error: E)
}

/** The values a SQL driver hands to a Scanner (database/sql/driver.Value). */
module Driver {

  datatype DriverValue =
    | NullValue                      // nil
    | StringValue(text: string)      // string
    | BytesValue(bytes: seq<bv8>)    // []byte
    | OtherValue(goType: string)     // any other dynamic type, named as %T prints it

  /** The name `%T` prints for the dynamic type of a non-nil value. */
  function GoTypeName(v: DriverValue): string
    requires !v.NullValue?
  {
    match v
    case StringValue(_) => "string"
    case BytesValue(_) => "[]uint8"
    case OtherValue(t) => t
  }
}
