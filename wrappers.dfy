/** Optional values, results and the exceptions of the family-tree core as error values. */
module Wrappers {

  datatype Option<+T> = None | Some(value: T)

  /** One variant per exception type the core raises. */
  datatype Error =
    | KeyNotFound(key: string)                          // KeyNotFoundException from a dictionary index
    | InvalidData(message: string)                      // InvalidDataException
    | InvalidOperation(message: string)                 // InvalidOperationException
    | MissingRequiredAttribute(attributes: set<string>) // MissingRequiredAttributeException
    | InvalidAttribute(attribute: string)               // InvalidAttributeException
    | UniqueIdentifierNotExists                         // UniqueIdentifierNotExistsException
    | FormatError                                       // FormatException from Convert.ToInt32
    | OverflowError                                     // OverflowException from Convert.ToInt32
    | IndexOutOfRange                                   // IndexOutOfRangeException from an array index
    | NullReference                                     // NullReferenceException from a member of null

  /** The value an operation returns, or the exception it throws. */
  datatype Result<+T> = Ok(value: T) | Err(error: Error) {
    predicate IsFailure() { Err? }

    function PropagateFailure<U>(): Result<U>
      requires Err?
    {
      Err(error)
    }

    function Extract(): T
      requires Ok?
    {
      value
    }
  }

  /** The outcome of a check that either returns normally or throws. */
  datatype Outcome = Pass | Fail(error: Error) {
    predicate IsFailure() { Fail? }

    function PropagateFailure(): Outcome
      requires Fail?
    {
      this
    }
  }
}
