/** What a request handler sends back, in place of the HTTP response. */
module Replies {

  /** `Done` is the success response (200 or 201) carrying its body;
      `BadRequest`, `NotFound`, `Forbidden` and `ServerError` are the 400,
      404, 403 and 500 responses with their `error` (or `message`) text;
      `Unhandled` is an exception the handler does not catch. */
  datatype Reply<+T> =
    | Done(value: T)
    | BadRequest(error: string)
    | NotFound(error: string)
    | Forbidden(error: string)
    | ServerError(error: string)
    | Unhandled(error: string)
  {
    predicate IsFailure() { !Done? }
    function PropagateFailure<U>(): Reply<U> requires !Done? {
      match this
      case BadRequest(e) => BadRequest(e)
      case NotFound(e) => NotFound(e)
      case Forbidden(e) => Forbidden(e)
      case ServerError(e) => ServerError(e)
      case Unhandled(e) => Unhandled(e)
    }
    function Extract(): T requires Done? { value }
  }
}
