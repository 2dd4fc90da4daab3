/** Failure-carrying results for the Python exceptions the modelled code raises. */
module Wrappers {

  /** The Python exception classes that the modelled code can raise. */
  datatype Error =
    | ValueError      // explicit `raise ValueError(...)`
    | IndexError      // list or tuple index out of range, `pop` from an empty list
    | TypeError       // wrong argument count, unsupported operand types, non-iterable
    | AttributeError  // attribute lookup on a value that is not a Tensor
    | AssertionError  // a failed `assert` statement
    | KeyError        // dictionary lookup of a missing key
    | StopIteration   // `__next__` past the last element
    | RecursionError  // the interpreter's recursion limit exceeded

  datatype Option<+T> = None | Some(value: T)

  datatype Result<+T> = Ok(value: T) | Err(error: Error) {
    predicate IsFailure() { Err? }
    function PropagateFailure<U>(): Result<U>
      requires Err?
    {
      Err(error)
    }
    function Extract(): T
      requires Ok?
    {
      value
    }
  }

  /** A check that either passes or raises. */
  datatype Outcome = Pass | Fail(error: Error) {
    predicate IsFailure() { Fail? }
    function PropagateFailure<U>(): Result<U>
      requires Fail?
    {
      Err(error)
    }
  }
}
