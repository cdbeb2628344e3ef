/** Types shared by every part of the model. */
module Basics {

  datatype Option<+T> = None | Some(value: T)

  /** How one call to an external system ends, as seen by the code that makes it. */
  datatype Call =
    | Works
    | Raises      // an exception, and the remote side did nothing
    | RaisesLate  // the remote side did the work, but the caller sees an exception
    | Dies        // the process is lost before the call takes effect

  /** How one task body, or one service call, ends. */
  datatype End = Returned | Raised | Lost

  /** A call that turns `before` into `after`, seen from both sides. */
  function Perform<T>(before: T, after: T, call: Call): (T, End) {
    match call
    case Works => (after, Returned)
    case Raises => (before, Raised)
    case RaisesLate => (after, Raised)
    case Dies => (before, Lost)
  }

  /** A call that changes nothing on the remote side. */
  function Ask(call: Call): End {
    Perform((), (), call).1
  }
}
