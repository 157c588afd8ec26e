/** Option and Result: the source's `T | undefined` and its thrown errors. */
module Wrappers {

  datatype Option<+T> = None | Some(value: T)

  /** `o ?? default` */
  function OrElse<T>(o: Option<T>, default: T): T {
    if o.Some? then o.value else default
  }

  datatype Result<+T> = Ok(value: T) | Err(error: string) {
    predicate IsFailure() {
      Err?
    }

    function PropagateFailure<U>(): Result<U>
      requires Err?
    {
      Err(error)
    }

    function Extract(): T
      requires Ok?
    {
      value
    }
  }
}
