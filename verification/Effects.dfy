/** Results of steps that touch the outside world. */
module Effects {

  datatype Option<+T> = None | Some(value: T) {
    function GetOr(default: T): T {
      if Some? then value else default
    }
  }

  /**
   * A step either returns, throws (with the HTTP status of the error, 0 when it
   * has none), or the process dies inside it.  `:-` propagates the last two,
   * as an uncaught exception and a crash do.
   */
  datatype Outcome<+T> = Ok(value: T) | Thrown(status: nat) | Crashed {
    predicate IsFailure() { !Ok? }

    function PropagateFailure<U>(): Outcome<U>
      requires IsFailure()
    {
      if Thrown? then Thrown(status) else Crashed
    }

    function Extract(): T
      requires Ok?
    {
      value
    }
  }
}
