/**
 * The two wire messages exchanged between the supervising process and the
 * child that runs scripts (pkg/types/types.go).
 */
module Types {
  import opened Wrappers

  /** The response types a request may name; any other text is representable and rejected by the child. */
  const NilType: string := "nil"
  const JsonType: string := "json"

  /** A request: a correlation id, the script text and the response type asked for. */
  datatype Request = Request(id: string, code: string, responseType: string)

  /** A response: the echoed id, an optional error text and an optional serialized result. */
  datatype Response = Response(id: string, error: Option<string>, result: Option<string>)

  /** A response never carries both an error and a result. */
  predicate WellFormed(r: Response) {
    !(r.error.Some? && r.result.Some?)
  }
}
