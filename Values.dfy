/** Value types shared by the whole model: Java's nullable references as `Option`,
    Java's fixed-width integers as subset types of `int`, and the exceptions that
    the header getters can throw. */
module Values {

  /** A Java reference that may be null. */
  datatype Option<+T> = None | Some(value: T) {
    function GetOr(default: T): T {
      match this
      case Some(v) => v
      case None => default
    }
  }

  /** Exceptions raised while decoding header text. */
  datatype ParseError =
    | NumberFormatException(input: string)
    | DateTimeParseException(input: string)

  /** The value of an expression that may throw a parse exception. */
  datatype Result<+T> = Ok(value: T) | Err(error: ParseError)

  const INT32_MIN: int := -0x8000_0000
  const INT32_MAX: int := 0x7FFF_FFFF
  const INT64_MIN: int := -0x8000_0000_0000_0000
  const INT64_MAX: int := 0x7FFF_FFFF_FFFF_FFFF

  /** Java `int`. */
  type int32 = x: int | INT32_MIN <= x <= INT32_MAX

  /** Java `long`. */
  type int64 = x: int | INT64_MIN <= x <= INT64_MAX

  /** Java's `n + 1` on an `int`: two's-complement wrap-around at the top of the range. */
  function WrapInc(n: int32): (r: int32)
    ensures n < INT32_MAX ==> r == n + 1
    ensures n == INT32_MAX ==> r == INT32_MIN
  {
    if n == INT32_MAX then INT32_MIN else n + 1
  }
}
