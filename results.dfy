/** Failure-compatible result type used to model the exceptions the plugin
    raises. Each Failure is named after the Python exception it stands for. */
module Results {

  datatype Failure =
    | KeyError(key: string)   // a dictionary lookup of a missing key
    | TypeError               // an operation applied to a value of the wrong type
    | AttributeError          // an attribute read on None
    | IndexError              // `[-1]` on an empty list
    | ZeroDivisionError       // a division by a zero number of days
    | DateOutOfRange          // datetime's ValueError: a year outside 1..9999
    | ValueError              // a value of the right type that cannot be converted

  datatype Result<+T> = Ok(value: T) | Err(error: Failure) {

    predicate IsFailure() {
      Err?
    }

    function PropagateFailure<U>(): Result<U>
      requires Err?
    {
      Err(error)
    }

    function Extract(): T
      requires Ok?
    {
      value
    }
  }

  datatype Option<+T> = None | Some(value: T)
}
