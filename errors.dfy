/**
 * Go error values as the GPIO event code produces, wraps and compares them.
 * A Go `error` that may be nil is an `Option<Error>`: `None` is nil.
 */
module Errors {

  datatype Option<+T> = None | Some(value: T)

  /**
   * `Errno` is a `syscall.Errno`; `EOF` and `UnexpectedEOF` are what
   * `io.ReadFull` reports when nothing or only part of a record was read;
   * `Opaque` stands for an error made by a collaborator that is not part of
   * this model (the `fdevents` package, `Line.Close`); `Wrapped` is the value
   * of `fmt.Errorf(context + "%w", cause)`.
   */
  datatype Error =
    | Errno(code: nat)
    | EOF
    | UnexpectedEOF
    | Opaque(id: nat)
    | Wrapped(context: string, cause: Error)

  /** `syscall.EINTR` on Linux. */
  const EINTR: Error := Errno(4)
}
