/** Failure-compatible results for the pipeline model. Every Python exception the
    modelled code can raise becomes an `Error` value, so that error paths are part
    of the model instead of being excluded by preconditions. */
module Outcomes {

  /** The shape a tuple-unpacking assignment demands: `a, b, c = args` needs exactly
      three elements, `a, *_ = args` needs at least one. */
  datatype Arity = Exactly(n: nat) | AtLeast(n: nat)

  /** True when a tuple of `k` elements can be unpacked against `a`. */
  predicate Admits(a: Arity, k: nat) {
    match a
    case Exactly(n) => k == n
    case AtLeast(n) => k >= n
  }

  datatype Error =
    | UnpackMismatch(expected: Arity, got: nat)  // ValueError raised by tuple unpacking
    | IndexOutOfRange                           // IndexError: subscript of an empty tuple
    | ConditionNotTensor                        // TypeError: torch.where given a non-tensor condition
    | MissingAttribute(name: string)            // AttributeError raised by a module's attribute lookup
    | ZeroDivision                              // ZeroDivisionError from `%` or `//`
    | AssertionFailed                           // AssertionError from an `assert` statement

  datatype Option<+T> = None | Some(value: T)

  datatype Result<+T> = Ok(value: T) | Err(error: Error) {

    predicate IsFailure() {
      Err?
    }

    function PropagateFailure<U>(): Result<U>
      requires Err?
    {
      Err(error)
    }

    function Extract(): T
      requires Ok?
    {
      value
    }
  }
}
