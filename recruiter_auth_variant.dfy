/**
 * The "recruiter or delegated coach" gate of the jobs, logs and notes routes. A recruiter passes
 * unchanged; a coach passes when the route's candidate belongs to a recruiter assigned to that coach,
 * and the request is then marked as coming from the coach on behalf of that recruiter.
 */
module RecruiterAuthVariant {
  import opened Records
  import opened Access
  import opened Database
  import opened Http
  import RecruiterAuth
  import CoachAuth

  datatype Decision = PassRecruiter | Delegate(recruiterId: int) | Deny

  /**
   * The decision, as a function of the role name and the tables: `coach` is the authenticated user's
   * coach row. The coach branch dereferences it only once the candidate and its recruiter are found,
   * so a coach without a coach row is denied when either is missing, and is excluded only past them.
   */
  function Decide(roleName: string, candidates: map<int, Candidate>, recruiters: map<int, Recruiter>,
                  coachRecruiter: map<int, Assignment>, coach: Option<int>, candidateId: int): (d: Decision)
    requires roleName == "Coach" && candidateId in candidates && candidates[candidateId].recruiterId in recruiters ==> coach.Some?
    ensures d == PassRecruiter <==> roleName == "Recruiter"
    ensures d.Delegate? <==> roleName == "Coach" && candidateId in candidates &&
                             candidates[candidateId].recruiterId in recruiters &&
                             Assigned(recruiters, coachRecruiter, coach.value, candidates[candidateId].recruiterId)
    ensures d.Delegate? ==> d.recruiterId == candidates[candidateId].recruiterId
  {
    if roleName == "Recruiter" then PassRecruiter
    else if roleName == "Coach" && candidateId in candidates then
      var owner := candidates[candidateId].recruiterId;
      if owner in recruiters && Assigned(recruiters, coachRecruiter, coach.value, owner) then Delegate(owner)
      else Deny
    else Deny
  }

  /** A delegation always names the recruiter that owns the candidate. */
  lemma DelegateOwnsCandidate(roleName: string, candidates: map<int, Candidate>, recruiters: map<int, Recruiter>,
                              coachRecruiter: map<int, Assignment>, coach: Option<int>, candidateId: int)
    requires roleName == "Coach" && candidateId in candidates && candidates[candidateId].recruiterId in recruiters ==> coach.Some?
    requires Decide(roleName, candidates, recruiters, coachRecruiter, coach, candidateId).Delegate?
    ensures Owns(candidates, Decide(roleName, candidates, recruiters, coachRecruiter, coach, candidateId).recruiterId, candidateId)
  {
  }

  /**
   * How the delegating gate relates to the two plain gates: every user the recruiter gate passes
   * passes here as itself; anyone else who passes is a user the coach gate passes, and then only as
   * the owner of the route's candidate, a recruiter assigned to that coach.
   */
  lemma WidensRecruiterGateByAssignedCoaches(roleName: string, candidates: map<int, Candidate>, recruiters: map<int, Recruiter>,
                                             coachRecruiter: map<int, Assignment>, coach: Option<int>, candidateId: int)
    requires roleName == "Coach" && candidateId in candidates && candidates[candidateId].recruiterId in recruiters ==> coach.Some?
    ensures var d := Decide(roleName, candidates, recruiters, coachRecruiter, coach, candidateId);
            && (RecruiterAuth.Handle(roleName) == Next <==> d == PassRecruiter)
            && (d.Delegate? ==> CoachAuth.Handle(roleName) == Next && coach.Some? &&
                                Owns(candidates, d.recruiterId, candidateId) &&
                                Assigned(recruiters, coachRecruiter, coach.value, d.recruiterId))
            && (CoachAuth.Handle(roleName) != Next && RecruiterAuth.Handle(roleName) != Next ==> d == Deny)
  {
  }

  /**
   * `handle`: a recruiter calls next; a coach who passes the checks calls next with
   * `middleware_coach` set and `middleware_recruiter_id` the candidate's recruiter; everyone else gets
   * 403 and the request is left as it was.
   */
  method Handle(db: Db, req: Request, roleName: string, authCoach: Option<int>, candidateId: int) returns (v: Verdict)
    requires (roleName == "Coach" && candidateId in db.candidates.rows &&
              db.candidates.rows[candidateId].recruiterId in db.recruiters.rows) ==> authCoach.Some?
    modifies req
    ensures var d := Decide(roleName, db.candidates.rows, db.recruiters.rows, db.coachRecruiter.rows, authCoach, candidateId);
            (v == Next <==> d != Deny) && (v != Next ==> v == Reject(403, ForbiddenMessage))
    ensures var d := Decide(roleName, db.candidates.rows, db.recruiters.rows, db.coachRecruiter.rows, authCoach, candidateId);
            d.Delegate? ==> req.middlewareCoach && req.middlewareRecruiterId == d.recruiterId
    ensures var d := Decide(roleName, db.candidates.rows, db.recruiters.rows, db.coachRecruiter.rows, authCoach, candidateId);
            !d.Delegate? ==> unchanged(req)
  {
    var passed := false;
    if roleName == "Recruiter" {
      return Next;
    }
    if roleName == "Coach" {
      if candidateId in db.candidates.rows {
        var recruiter := db.candidates.rows[candidateId].recruiterId;
        if recruiter in db.recruiters.rows {
          if Assigned(db.recruiters.rows, db.coachRecruiter.rows, authCoach.value, recruiter) {
            passed := true;
            req.middlewareCoach := true;
            req.middlewareRecruiterId := recruiter;
          }
        }
      }
    }
    if passed {
      v := Next;
    } else {
      v := Reject(403, ForbiddenMessage);
    }
  }
}
