/**
 * The vocabulary shared by the polling engine and the wait handlers:
 * what one status probe yields, the errors a wait can end with, and
 * the triple (waitFinished, response, err) a check function returns
 * for one probe.
 */
module Probes {
  import opened Wrappers

  /** HTTP status codes the handlers recognise (Go's net/http constants). */
  const StatusForbidden: int := 403
  const StatusNotFound: int := 404

  /**
   * An error returned by a status client. `OpenAPIError` is the SDK's
   * generic API error, reduced to its HTTP status code; `OtherError` is
   * any other error value (transport failures, for instance).
   */
  datatype ProbeError =
    | OpenAPIError(statusCode: int)
    | OtherError(message: string)

  /** The error a check function or the engine reports. */
  datatype Error =
    | ProbeFailed(cause: ProbeError)                 // the client's error, returned as it is
    | CreateFailed                                   // "create failed"
    | ReceivedState(state: string, projectId: string) // "received state: %s for project Id: %s"
    | ConversionFailed(cause: ProbeError)            // "could not convert error ...: %w"
    | TimedOut                                       // the engine's deadline passed

  /** One read of a status client: a snapshot, or the error it returned. */
  datatype ProbeResult<T> = Found(snapshot: T) | Failed(error: ProbeError)

  /** What a check function returns for one probe. */
  datatype Step<T> = Step(finished: bool, resp: Option<T>, err: Option<Error>)

  /** The engine stops polling at a step that is finished or carries an error. */
  predicate Terminal<T>(s: Step<T>)
  {
    s.finished || s.err.Some?
  }

  /** A step that lets polling go on carries no response. */
  predicate QuietWhilePending<T>(s: Step<T>)
  {
    !Terminal(s) ==> s.resp == None
  }
}
