/**
 * The parts of the web framework the core touches, reduced to values: the
 * ambient request context the tracker reads, and the `(body, status)` pair a
 * handler returns.
 */
module Flask {
  import opened Python

  /**
   * The ambient request: `endpoint` is the matched route's name (for a route
   * of a blueprint, the blueprint name, a dot and the function name), or
   * `None` when no route matched; `httpMethod` is the HTTP method as sent (`request.method`).
   */
  datatype Request = Request(endpoint: Option<string>, httpMethod: string)

  /** `return jsonify(body), status` */
  datatype Response = Response(body: Value, status: int)

  /** The JSON object `{"message": text}` the handlers return with a 404. */
  function MessageBody(text: string): (v: Value)
    ensures v.Dict? && v.entries.Keys == {"message"} && v.entries["message"] == Str(text)
  {
    Dict(map["message" := Str(text)])
  }
}
