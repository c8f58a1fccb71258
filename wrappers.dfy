/** Option and Result types shared by the model, and the failures the engine can raise. */
module Wrappers {

  datatype Option<+T> = None | Some(value: T)

  /** A failure-compatible result: usable with `:-`. */
  datatype Result<+T, +E> = Ok(value: T) | Err(error: E) {

    predicate IsFailure() {
      Err?
    }

    function PropagateFailure<U>(): Result<U, E>
      requires Err?
    {
      Err(error)
    }

    function Extract(): T
      requires Ok?
    {
      value
    }
  }

  /** The exceptions the allocation engine raises and does not catch itself. */
  datatype Fault =
    | MathDomain        // ValueError from log or sqrt of an argument outside its domain
    | ZeroDivision      // ZeroDivisionError outside a try block
    | IdenticalCovar    // singular covariance matrix (Alloc.IdenticalCovarError)
    | NonFinite         // a division by a zero risk aversion; numpy goes on with inf/nan, the model stops
    | NoData            // YieldCurve.NoData: no interest rate data for the quote date
    | UnableToAdjust    // LifeTable.UnableToAdjust: life expectancy cannot be matched
    | AssertionFailed   // the sanity assertions at the end of fix_allocs
    | IndexOutOfRange   // IndexError from a tuple subscript
    | MissingSpouseAge  // AttributeError: a spouse row priced while no spouse was given
    | NoneOperand       // TypeError: arithmetic on, or float() of, a missing value (desired income, spouse age)

  type Outcome<T> = Result<T, Fault>

  /** Turns a condition into a failure when it does not hold. */
  function Need(condition: bool, fault: Fault): Outcome<()>
  {
    if condition then Ok(()) else Err(fault)
  }
}
