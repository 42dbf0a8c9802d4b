/** Option and Outcome wrappers shared by every module of the model. */
module Common {

  /** A value that may be absent (JavaScript `undefined`). */
  datatype Option<+T> = None | Some(value: T)

  /** Whether a JavaScript call returned normally or threw an error carrying `message`. */
  datatype Outcome = Returned | Threw(message: string)
}
