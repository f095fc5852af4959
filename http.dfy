/**
 * The vocabulary shared by the client and its transport: query parameters,
 * responses, the transport itself and the errors a call can raise.
 */
module Http {
  import opened Wrappers

  /** Keyword query parameters: parameter name to value. */
  type Query = map<string, string>

  /** What the transport hands back for a delivered request. */
  datatype Response = Response(finalUrl: string, status: int, body: string)

  /** A transport either delivers a response or reports a failed request. */
  datatype Outcome = Delivered(response: Response) | Failed(status: int, body: string)

  /**
   * The HTTP transport the client is bound to, as a function of the base
   * address, the verb, the path and the query parameters.
   */
  type Transport = (string, string, string, Query) -> Outcome

  /** The errors a call on the client can raise. */
  datatype Error =
    | RequestFailed(status: int, body: string)  // raised by the transport
    | SegmentTypeError(index: nat)              // a path segment that is not a string, found when the URL is joined
}
