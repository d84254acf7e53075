/** Optional values and the failures a C# call of this code base can end in. */
module Wrappers {

  /** A C# nullable value: `null` is `None`. */
  datatype Option<+T> = None | Some(value: T)

  /** The exceptions the modelled code can raise instead of returning. */
  datatype Fault =
    | MissingRow      // a game-data row dereferenced with `!` or `.Value` does not exist
    | DivideByZero    // integer `%` by zero
    | NoLocalPlayer   // the local player is dereferenced with `!` while logged out
    | IndexOutOfRange // an array is indexed past its end

  /** A returned value, or the exception that was raised instead. */
  datatype Result<+T> = Ok(value: T) | Err(fault: Fault)
}
