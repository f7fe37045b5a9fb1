/** Values shared by every route: optional values and the outcome of a request handler. */
module Outcomes {

  datatype Option<+T> = None | Some(value: T)

  /** What a handler answers: a JSON body, or an HTTP error with its status code and detail. */
  datatype Outcome<+T> = Ok(value: T) | Fail(code: int, detail: string)

  /** An exception the handler does not catch (KeyError, ValueError, IndexError, ...):
      the web framework answers it with a bare 500. */
  function Crash<T>(): (r: Outcome<T>)
    ensures r.Fail? && r.code == 500
  {
    Fail(500, "Internal Server Error")
  }
}
