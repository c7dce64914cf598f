/**
 * Grants issued and revoked by a coach (routes behind the coach gate). `authCoach` is the
 * authenticated user's coach row, none when the user has no coach row.
 */
module PermissionController {
  import opened Records
  import opened Access
  import opened Database
  import opened Http

  const Created := "Permission created"
  const CoachMissing := "The coach couldn't be found"
  const GranteeMissing := "The recruiter that is being given the permission couldn't be found"
  const SourceMissing := "The recruiter from where the permission comes from couldn't be found"
  const CandidateMissing := "The candidate couldn't be found"
  const Deleted := "Permission deleted"
  const PermissionMissing := "The permission you tried to delete doesn't exists"
  const DestroyFailed := "Something went wrong when deleting a permission"

  /**
   * Whether `store` issues the grant: the coach exists, the grantee and the source recruiter are both
   * assigned to that coach, and the candidate belongs to the source recruiter.
   */
  predicate MayIssue(s: Tables, coach: Option<int>, recruiterId: int, recruiterIdFrom: int, candidateId: int)
  {
    && coach.Some?
    && Assigned(s.recruiters.rows, s.coachRecruiter.rows, coach.value, recruiterId)
    && Assigned(s.recruiters.rows, s.coachRecruiter.rows, coach.value, recruiterIdFrom)
    && Owns(s.candidates.rows, recruiterIdFrom, candidateId)
  }

  /**
   * `store`: the four checks in order, each failure answering 404 with its own message and inserting
   * nothing; when all pass, one new permission row naming the grantee, the type, the issuing coach and
   * the candidate, and 201. The type id is not looked up and duplicates are not refused.
   */
  method Store(db: Db, authCoach: Option<int>, recruiterId: int, recruiterIdFrom: int, candidateId: int, permissionTypeId: int)
    returns (res: Response<Row<Permission>>)
    requires db.Valid()
    modifies db
    ensures db.Valid() && db.Snapshot() == old(db.Snapshot()).(permissions := db.permissions)
    ensures !MayIssue(old(db.Snapshot()), authCoach, recruiterId, recruiterIdFrom, candidateId) ==>
              res.status == 404 && res.body.None? && db.permissions == old(db.permissions)
    ensures authCoach.None? ==> res.message == CoachMissing
    ensures authCoach.Some? && !Assigned(old(db.recruiters.rows), old(db.coachRecruiter.rows), authCoach.value, recruiterId) ==>
              res.message == GranteeMissing
    ensures authCoach.Some? && Assigned(old(db.recruiters.rows), old(db.coachRecruiter.rows), authCoach.value, recruiterId) &&
            !Assigned(old(db.recruiters.rows), old(db.coachRecruiter.rows), authCoach.value, recruiterIdFrom) ==>
              res.message == SourceMissing
    ensures authCoach.Some? && Assigned(old(db.recruiters.rows), old(db.coachRecruiter.rows), authCoach.value, recruiterId) &&
            Assigned(old(db.recruiters.rows), old(db.coachRecruiter.rows), authCoach.value, recruiterIdFrom) &&
            !Owns(old(db.candidates.rows), recruiterIdFrom, candidateId) ==>
              res.message == CandidateMissing
    ensures MayIssue(old(db.Snapshot()), authCoach, recruiterId, recruiterIdFrom, candidateId) ==>
              var grant := Permission(recruiterId, permissionTypeId, authCoach.value, candidateId);
              var id := old(db.permissions.next);
              && res == Response(201, Created, Some(Row(id, grant)))
              && id !in old(db.permissions.rows)
              && db.permissions.rows == old(db.permissions.rows)[id := grant] && db.permissions.next == old(db.permissions.next) + 1
  {
    var permission: Option<Row<Permission>> := None;
    var message := Created;
    var status := 201;
    if authCoach.Some? {
      if Assigned(db.recruiters.rows, db.coachRecruiter.rows, authCoach.value, recruiterId) {
        if Assigned(db.recruiters.rows, db.coachRecruiter.rows, authCoach.value, recruiterIdFrom) {
          var candidate := OwnedCandidate(db.candidates.rows, recruiterIdFrom, candidateId);
          if candidate.Some? {
            var row := Permission(recruiterId, permissionTypeId, authCoach.value, candidateId);
            permission := Some(Row(db.permissions.next, row));
            db.permissions := db.permissions.Insert(row);
          } else {
            message := CandidateMissing;
            status := 404;
          }
        } else {
          message := SourceMissing;
          status := 404;
        }
      } else {
        message := GranteeMissing;
        status := 404;
      }
    } else {
      message := CoachMissing;
      status := 404;
    }
    res := Response(status, message, permission);
  }

  /**
   * `destroy`: only the coach who issued a permission can revoke it. A user without a coach row fails
   * inside the guarded block (500); a permission that does not exist or was issued by another coach
   * gives 404; otherwise exactly that row is deleted.
   */
  method Destroy(db: Db, authCoach: Option<int>, id: int) returns (res: Response<Row<Permission>>)
    requires db.Valid()
    modifies db
    ensures db.Valid() && db.Snapshot() == old(db.Snapshot()).(permissions := db.permissions)
    ensures authCoach.None? ==> res == Response(500, DestroyFailed, None) && db.permissions == old(db.permissions)
    ensures authCoach.Some? && !(id in old(db.permissions.rows) && old(db.permissions.rows)[id].coachId == authCoach.value) ==>
              res == Response(404, PermissionMissing, None) && db.permissions == old(db.permissions)
    ensures authCoach.Some? && id in old(db.permissions.rows) && old(db.permissions.rows)[id].coachId == authCoach.value ==>
              && res == Response(200, Deleted, Some(Row(id, old(db.permissions.rows)[id])))
              && db.permissions.rows == old(db.permissions.rows) - {id} && db.permissions.next == old(db.permissions.next)
  {
    if authCoach.None? {
      return Response(500, DestroyFailed, None);
    }
    var permission: Option<Row<Permission>> := None;
    var message := Deleted;
    var status := 200;
    if id in db.permissions.rows && db.permissions.rows[id].coachId == authCoach.value {
      permission := Some(Row(id, db.permissions.rows[id]));
      db.permissions := db.permissions.Delete(id);
    } else {
      message := PermissionMissing;
      status := 404;
    }
    res := Response(status, message, permission);
  }

  /**
   * Issuing a grant opens exactly one access and keeps it inside the coach's team: for every
   * recruiter, permission type and candidate, resolution after the insert differs from resolution
   * before only for the grant's own triple, whose candidate belongs to a recruiter of the issuing coach.
   */
  lemma IssuanceOpensOnlyItsTriple(s: Tables, coach: Option<int>, recruiterId: int, recruiterIdFrom: int, candidateId: int,
                                   typeId: int, r: Option<int>, t: int, c: int)
    requires MayIssue(s, coach, recruiterId, recruiterIdFrom, candidateId)
    requires s.permissions.Valid()
    ensures var after := s.permissions.Insert(Permission(recruiterId, typeId, coach.value, candidateId)).rows;
            ResolveCandidate(s.candidates.rows, after, r, t, c) != ResolveCandidate(s.candidates.rows, s.permissions.rows, r, t, c) ==>
              && r == Some(recruiterId) && t == typeId && c == candidateId
              && ResolveCandidate(s.candidates.rows, after, r, t, c) == Some(candidateId)
              && Assigned(s.recruiters.rows, s.coachRecruiter.rows, coach.value, s.candidates.rows[c].recruiterId)
  {
    var grant := Permission(recruiterId, typeId, coach.value, candidateId);
    var id := s.permissions.next;
    var after := s.permissions.Insert(grant).rows;
    if r.Some? && !(r == Some(recruiterId) && t == typeId && c == candidateId) {
      if HasGrant(after, r.value, t, c) {
        var k :| k in after && Matches(after[k], r.value, t, c);
        assert k != id;
        assert k in s.permissions.rows && Matches(s.permissions.rows[k], r.value, t, c);
      }
      if HasGrant(s.permissions.rows, r.value, t, c) {
        var k :| k in s.permissions.rows && Matches(s.permissions.rows[k], r.value, t, c);
        assert k in after && after[k] == s.permissions.rows[k];
      }
    }
    if r == Some(recruiterId) && t == typeId && c == candidateId {
      IssuedGrantResolves(s.candidates.rows, s.permissions.rows, id, grant);
    }
  }
}
