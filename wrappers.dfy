/** Option and Result, the failure-carrying values the rest of the model returns. */
module Wrappers {

  datatype Option<T> = None | Some(value: T)

  /** A fallible value; the error is the message the failure displays. */
  datatype Result<T> = Ok(value: T) | Err(error: string) {

    /** `this` when it is a success, else `other` (whatever `other` is). */
    function Or(other: Result<T>): (r: Result<T>)
      ensures r.Ok? <==> Ok? || other.Ok?
      ensures Ok? ==> r == this
      ensures Err? ==> r == other
    {
      if Ok? then this else other
    }

    /** Replaces a failure's message by `msg`; a success passes through. */
    function Context(msg: string): (r: Result<T>)
      ensures r.Ok? <==> Ok?
      ensures r.Ok? ==> r == this
      ensures r.Err? ==> r.error == msg
    {
      if Ok? then this else Err(msg)
    }
  }
}
