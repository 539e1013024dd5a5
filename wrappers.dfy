/** Failure-carrying values shared by every module of the model.

    The pipeline code signals failure by raising Python exceptions; the model
    returns them as values instead, so the exception an operation raises is
    part of its result (what it changed on disk before raising is not). */
module Wrappers {

  datatype Option<T> = None | Some(value: T)

  /** The Python exception classes the modelled code raises or lets escape
      (`Exception` is a bare `raise Exception(...)`; `XmlParseError` is
      `xml.etree.ElementTree.ParseError`).
      The `what` strings name the argument or key the message refers to. */
  datatype PyError =
    | Exception(what: string)
    | ValueError(what: string)
    | RuntimeError(what: string)
    | KeyError(key: string)
    | IndexError
    | AttributeError
    | TypeError
    | NotImplementedError
    | ZeroDivisionError
    | OverflowError(what: string)
    | IOError(what: string)
    | OSError(what: string)
    | FileExistsError(path: string)
    | NameError(name: string)
    | ParseError(path: string)
    | XmlParseError
    | CommandFailed(command: string, stdErr: seq<string>)

  datatype Result<T> = Ok(value: T) | Err(error: PyError) {
    predicate IsFailure() {
      Err?
    }

    function PropagateFailure<U>(): Result<U>
      requires Err?
    {
      Err(error)
    }

    function Extract(): T
      requires Ok?
    {
      value
    }
  }
}
