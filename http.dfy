/** What a controller action answers, what a route gate decides, and the request a gate may annotate. */
module Http {
  import opened Records

  /** The status, the message and the record (if any) of a JSON answer. */
  datatype Response<T> = Response(status: int, message: string, body: Option<T>)

  /** A gate either calls `next()` or answers 403 itself: exactly one of the two. */
  datatype Verdict = Next | Reject(status: int, message: string)

  const ForbiddenMessage := "You don't have the permission to use this resource"

  /** The request object; a delegating gate sets the two middleware fields on it. */
  class Request {
    var middlewareCoach: bool
    var middlewareRecruiterId: int

    /** A request no gate has annotated: `middleware_coach` is unset, hence falsy. */
    constructor()
      ensures !middlewareCoach && middlewareRecruiterId == 0
    {
      middlewareCoach, middlewareRecruiterId := false, 0;
    }
  }
}
