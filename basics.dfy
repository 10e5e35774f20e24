/** The optional value used for a C# reference that may be null, and for
    a lookup that may find nothing. */
module Optional {
  datatype Option<+T> = None | Some(value: T)
}

/** The .NET exceptions the warehouse code can throw. A method of the model
    that returns `Some(x)` stands for the C# code throwing `x`; `None`
    means the call returned normally. */
module Exceptions {

  /** Names of the arguments an ArgumentOutOfRangeException is about. */
  datatype Argument = Quantity | BatchId | FromLocationId | ToLocationId

  /** Why an InvalidOperationException was thrown. */
  datatype Reason =
    | NoLocationNamed(name: string)              // `First` found no location with this name
    | NotEnough(requested: int, available: int)  // a location holds less than is asked for
    | PharmaIntoNonEmpty                         // a pharma batch moved into an occupied location

  datatype Exception =
    | OutOfRange(argument: Argument)          // ArgumentOutOfRangeException
    | NullArgument                            // ArgumentNullException
    | InvalidOperation(reason: Reason)        // InvalidOperationException
    | KeyNotFound                             // a dictionary indexer on a missing key
    | DuplicateKey                            // Dictionary.Add on a key already present
    | NullReference                           // a member read through a null reference
}
