/** The "Coach" role gate: only a user whose role is named "Coach" reaches the route. */
module CoachAuth {
  import opened Http

  /** The gate reads only the role name and sets nothing on the request. */
  function Handle(roleName: string): (v: Verdict)
    ensures v == Next <==> roleName == "Coach"
    ensures v != Next ==> v == Reject(403, ForbiddenMessage)
  {
    if roleName == "Coach" then Next else Reject(403, ForbiddenMessage)
  }
}
