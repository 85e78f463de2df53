/** The error taxonomy the client surfaces. The numeric values of the named
    status codes live in status_code.js, which is not part of this model, so a
    named code is a constructor of its own and a code the server reported is
    kept as the integer it decoded to. In the source both kinds are numbers in
    one field: a reported number equal to a named code's value is that code
    there, while here it stays `Reported(n)`. */
module Errors {

  /** Where the model produces each code: the comment names the places, it
      does not say what a code means. */
  datatype Code =
    | ClientIoError               // raised by the constructor and the byte-code checks
    | RuntimeError                // raised where four operations re-wrap a builder failure
    | UnknownTransactionStatus    // raised by `_executePromise` when no status is recovered
    | Reported(value: int)        // the code `_executePromise` decodes from the binary status

  /** `new ClientError(code, message)`. */
  datatype ClientError = ClientError(code: Code, message: string)

  /** Anything an operation can throw: a ClientError, or some other error
      (a builder's own error, a TypeError) with its name and message. */
  datatype Exception =
    | Client(error: ClientError)
    | Other(name: string, message: string)

  /** The `message` property of a thrown error. */
  function MessageOf(e: Exception): string {
    match e
    case Client(err) => err.message
    case Other(_, m) => m
  }
}
