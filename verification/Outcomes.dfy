/** Results of code that can stop the process. */
module Outcomes {

  datatype Option<+T> = None | Some(value: T)

  /** `Fatal` is a call of log.Fatal, `Panic` an index out of range. */
  datatype Outcome<+T> = Ok(value: T) | Fatal | Panic {
    predicate IsFailure() {
      !Ok?
    }

    function PropagateFailure<U>(): Outcome<U>
      requires IsFailure()
    {
      if Fatal? then Fatal else Panic
    }

    function Extract(): T
      requires !IsFailure()
    {
      value
    }
  }
}
