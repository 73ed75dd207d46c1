/** Option and the reply of one call to the controller, shared by every module. */
module Wrappers {

  /** A value that may be absent: JavaScript's `null`/`undefined` at a use site. */
  datatype Option<+T> = None | Some(value: T) {
    function GetOr(default: T): T {
      match this
      case Some(v) => v
      case None => default
    }
  }

  /** The settled outcome of one awaited request to the controller: the text or JSON it
      answered with, or the rejection with its `err.message` (which may be empty). */
  datatype Reply<+T> = Replied(data: T) | Failed(message: string)

  /** `err.message || fallback`: an empty message shows the caller's fallback text. */
  function ErrorText(message: string, fallback: string): (r: string)
    ensures message != [] ==> r == message
    ensures message == [] ==> r == fallback
  {
    if message != [] then message else fallback
  }
}
