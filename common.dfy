/** Small wrapper types shared by the back end (Java) and the front end (TypeScript) models. */
module Common {

  /** A Java reference that may be null, or a TypeScript value that may be undefined. */
  datatype Option<+T> = None | Some(value: T)

  /** The two families of Java exceptions the controllers tell apart in their catch blocks. */
  datatype Failure =
    | Runtime(message: string)   // RuntimeException and its subclasses
    | Checked(message: string)   // any other Exception

  /** The outcome of a Java call: a returned value or a thrown exception. */
  datatype Result<+T> = Ok(value: T) | Err(failure: Failure)

  /** The outcome of an awaited TypeScript promise: a value or a thrown Error with its message. */
  datatype Outcome<+T> = Done(value: T) | Threw(message: string)

  /** Decimal digits of a natural number, most significant first. */
  function NatToDecimal(n: nat): string
    decreases n
  {
    var d := [(('0' as int) + n % 10) as char];
    if n < 10 then d else NatToDecimal(n / 10) + d
  }

  /** Decimal text of an integer, with a leading `-` when negative (Java's `Long.toString`, JavaScript's `String`). */
  function IntToDecimal(n: int): string
  {
    if n < 0 then "-" + NatToDecimal(-n) else NatToDecimal(n)
  }
}
