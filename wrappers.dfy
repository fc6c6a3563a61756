/** Small failure-carrying datatypes shared by the other modules. */
module Wrappers {

  datatype Option<+T> = None | Some(value: T)

  /** An exception as the program sees it: its text (what `{ex}` renders for
      an exception a service throws, the message for the one the program throws
      itself) and the text of its inner exception, when there is one. */
  datatype Exception = Exception(text: string, inner: Option<string>)

  /** The outcome of a step that either produces a value or throws. */
  datatype Try<+T> = Ok(value: T) | Throws(ex: Exception)
}
