/** Failure-compatible wrappers and the exceptions the modelled code raises. */
module Wrappers {

  datatype Option<+T> = None | Some(value: T)

  /** Python exceptions, by class, with the text `str(e)` would give. */
  datatype Error =
    | ValueError(msg: string)
    | KeyError(msg: string)
    | NameError(msg: string)
    | TypeError(msg: string)
    | AttributeError(msg: string)
    | AttestationError(msg: string)   // VtpmAttestationError
    | ExternalError(msg: string)      // raised inside a collaborator: model service, chain RPC, socket

  /** repr of a string, as str(KeyError(s)) shows it; backslash escapes are not modelled. */
  function Repr(s: string): string {
    if '\'' in s && '"' !in s then "\"" + s + "\"" else "'" + s + "'"
  }

  /** str(e): the message, except that a KeyError shows the repr of its message. */
  function ErrorText(e: Error): string {
    if e.KeyError? then Repr(e.msg) else e.msg
  }

  /** A value, or the exception that was raised instead. */
  datatype Result<+T> = Ok(value: T) | Err(error: Error) {
    predicate IsFailure() { Err? }

    function PropagateFailure<U>(): Result<U>
      requires Err?
    {
      Err(error)
    }

    function Extract(): T
      requires Ok?
    {
      value
    }
  }

  /** A check that either passes or raises. */
  datatype Outcome = Pass | Fail(error: Error) {
    predicate IsFailure() { Fail? }

    function PropagateFailure<U>(): Result<U>
      requires Fail?
    {
      Err(error)
    }
  }
}
