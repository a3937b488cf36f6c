/**
 * Optional values (Python's `None`) and the exceptions the measurement code
 * can raise, as values.
 */
module Wrappers {

  datatype Option<+T> = None | Some(value: T)

  /** The exceptions the measurement code raises on its crash paths. */
  datatype Fault =
    | NoneOperand     // TypeError: arithmetic on None
    | DivisionByZero  // ZeroDivisionError
    | NoneAttribute   // AttributeError: an attribute read on None

  /** How an event handler ended: normally, or by an exception that leaves the state as it was at the raise. */
  datatype Outcome = Completed | Raised(fault: Fault)

  /** A value, or the exception raised while computing it. */
  datatype Result<+T> = Ok(value: T) | Err(fault: Fault)

  /** Python truthiness of an optional number: neither None nor zero. */
  predicate Truthy(n: Option<real>)
  {
    n.Some? && n.value != 0.0
  }
}
