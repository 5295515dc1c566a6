/** The child's response constructors (pkg/runner/libs.go). */
module Libs {
  import opened Wrappers
  import opened Types

  /** The error response for `id` carrying the error's message. */
  function ErrResult(id: string, err: string): (r: Response)
    ensures r.id == id && r.error == Some(err) && r.result.None?
    ensures WellFormed(r)
  {
    Response(id, Some(err), None)
  }

  /** The empty response for `id`: neither an error nor a result. */
  function NilResult(id: string): (r: Response)
    ensures r.id == id && r.error.None? && r.result.None?
    ensures WellFormed(r)
  {
    Response(id, None, None)
  }

  /**
   * The JSON response for `id`, given the outcome of the engine's JSON
   * stringify of the script's value: the text on success, otherwise
   * exactly the error response for the stringify error.
   */
  function JsonResult(id: string, stringified: Result<string, string>): (r: Response)
    ensures r.id == id && WellFormed(r)
    ensures stringified.Success? ==> r.result == Some(stringified.value) && r.error.None?
    ensures stringified.Failure? ==> r == ErrResult(id, stringified.error)
  {
    match stringified
    case Failure(e) => ErrResult(id, e)
    case Success(text) => Response(id, None, Some(text))
  }
}
