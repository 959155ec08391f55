/** Failure-compatible values shared by every module of the model. */
module Wrappers {

  /** A value that may be missing: a key that is not there, or a JSON `null`
      where the source reads the two alike. */
  datatype Option<T> = None | Some(value: T)

  /** The outcome of a call into code outside the model (the HTTP API, the
      document store): it either returns a value or throws with a message. */
  datatype Result<T> = Success(value: T) | Failure(message: string)

  /** One field of a partial update (a PATCH body, a `$set` document): the
      field is either left out, so the stored value is kept, or supplied. */
  datatype Update<T> = Keep | Set(value: T)
  {
    function ApplyTo(current: T): T
    {
      if Set? then value else current
    }
  }
}
