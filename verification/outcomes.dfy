/** Result-like datatypes shared by the model. */
module Outcomes {

  /** An optional value, used for the `(value, ok)` pairs that Go lookups return. */
  datatype Option<+T> = None | Some(value: T)

  /** How one call ends in a sequential reading of the Go code: it returns a
      value, it blocks forever (a channel operation that no other party can
      complete), or it panics with the runtime's message. */
  datatype Outcome<+T> = Ok(value: T) | Blocks | Panics(reason: string)

  /** The Go runtime's panic message for a send on a closed channel. */
  const SendOnClosed: string := "send on closed channel"

  /** The Go runtime's panic message for closing a channel twice. */
  const CloseOfClosed: string := "close of closed channel"
}
