/** Small value wrappers shared by every module of the chat-bot model. */
module Base {

  /** A value that may be missing: JavaScript's `undefined`/`null` next to a real value. */
  datatype Option<+T> = None | Some(value: T)
}
