/** What a request handler answers. */
module Http {

  datatype Response<T> =
    /** 200 with the handler's JSON body. */
    | Ok(value: T)
    /** A JSON `{ error: message }` body with a non-200 status. */
    | Fail(status: int, message: string)
    /** An exception escaped the handler; the framework answers 500. */
    | Unhandled(reason: string)
  {
    function Status(): int {
      match this
      case Ok(_) => 200
      case Fail(status, _) => status
      case Unhandled(_) => 500
    }
  }
}
