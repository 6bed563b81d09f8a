/** Value wrappers shared by the whole model. */
module Common {

  /** A JavaScript value that may be `undefined`. */
  datatype Option<T> = None | Some(value: T)

  /** How a bridge call ends: with a value, or by throwing / rejecting with a message. */
  datatype Outcome<R> = Returned(value: R) | Threw(message: string)
}
