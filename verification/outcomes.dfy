/** The failures the modelled code can raise: C# integer division by zero, and
    an array index beyond the alphamap's layers. */
module Outcomes {

  /** A value, or the .NET exception that computing it throws. */
  datatype Outcome<+T> = Ok(value: T) | DivideByZeroException | IndexOutOfRangeException
}
