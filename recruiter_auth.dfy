/** The "Recruiter" role gate: only a user whose role is named "Recruiter" reaches the route. */
module RecruiterAuth {
  import opened Http

  /** The gate reads only the role name and sets nothing on the request. */
  function Handle(roleName: string): (v: Verdict)
    ensures v == Next <==> roleName == "Recruiter"
    ensures v != Next ==> v == Reject(403, ForbiddenMessage)
  {
    if roleName == "Recruiter" then Next else Reject(403, ForbiddenMessage)
  }
}
