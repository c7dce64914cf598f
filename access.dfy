/**
 * The access resolver shared by the controllers: ownership, coach assignment and the lookup of
 * permission grants, as pure functions of the tables, with the properties of grant resolution.
 */
module Access {
  import opened Records

  /** `recruiter.candidates().where('id', c).first()` finds a row: candidate c exists and belongs to the recruiter. */
  predicate Owns(candidates: map<int, Candidate>, recruiterId: int, candidateId: int)
  {
    candidateId in candidates && candidates[candidateId].recruiterId == recruiterId
  }

  /**
   * `coach.recruiters().where('recruiter_id', r).first()` finds a row: the recruiter exists and a
   * coach_recruiter row links it to the coach.
   */
  predicate Assigned(recruiters: map<int, Recruiter>, coachRecruiter: map<int, Assignment>, coachId: int, recruiterId: int)
  {
    recruiterId in recruiters && exists a :: a in coachRecruiter && coachRecruiter[a] == Assignment(coachId, recruiterId)
  }

  /** The three columns the grant lookup filters on; the grant's coach_id is not among them. */
  predicate Matches(p: Permission, recruiterId: int, typeId: int, candidateId: int)
  {
    p.recruiterId == recruiterId && p.permissionTypeId == typeId && p.candidateId == candidateId
  }

  /** The grant query on (recruiter_id, permission_type_id, candidate_id) finds a row. */
  predicate HasGrant(permissions: map<int, Permission>, recruiterId: int, typeId: int, candidateId: int)
  {
    exists k :: k in permissions && Matches(permissions[k], recruiterId, typeId, candidateId)
  }

  /** `recruiter.candidates().where('id', c).first()`. */
  function OwnedCandidate(candidates: map<int, Candidate>, recruiterId: int, candidateId: int): (r: Option<int>)
    ensures r.Some? <==> Owns(candidates, recruiterId, candidateId)
    ensures r.Some? ==> r.value == candidateId
  {
    if Owns(candidates, recruiterId, candidateId) then Some(candidateId) else None
  }

  /** `Candidate.find(id)`. */
  function FindCandidate(candidates: map<int, Candidate>, candidateId: int): (r: Option<int>)
    ensures r.Some? <==> candidateId in candidates
    ensures r.Some? ==> r.value == candidateId
  {
    if candidateId in candidates then Some(candidateId) else None
  }

  /**
   * The candidate a Notes or Logs request works on: none without a recruiter; the candidate itself
   * when the recruiter owns it; otherwise, when a grant matches the recruiter, the permission type and
   * the candidate exactly, the candidate found by id; otherwise none.
   */
  function ResolveCandidate(candidates: map<int, Candidate>, permissions: map<int, Permission>,
                            recruiter: Option<int>, typeId: int, candidateId: int): (r: Option<int>)
    ensures r.Some? ==> r.value == candidateId && candidateId in candidates
    ensures r.Some? <==> recruiter.Some? && candidateId in candidates &&
                         (candidates[candidateId].recruiterId == recruiter.value ||
                          HasGrant(permissions, recruiter.value, typeId, candidateId))
  {
    if recruiter.None? then None
    else if Owns(candidates, recruiter.value, candidateId) then Some(candidateId)
    else if HasGrant(permissions, recruiter.value, typeId, candidateId) then FindCandidate(candidates, candidateId)
    else None
  }

  /**
   * The lookup as the Notes and Logs controllers run it: the recruiter's own candidate first; only
   * when that finds nothing, the grant query, and on a grant the candidate by id.
   */
  method LookupCandidate(candidates: map<int, Candidate>, permissions: map<int, Permission>,
                         recruiterId: int, typeId: int, candidateId: int) returns (candidate: Option<int>)
    ensures candidate == ResolveCandidate(candidates, permissions, Some(recruiterId), typeId, candidateId)
  {
    candidate := OwnedCandidate(candidates, recruiterId, candidateId);
    if candidate.None? {
      if HasGrant(permissions, recruiterId, typeId, candidateId) {
        candidate := FindCandidate(candidates, candidateId);
      }
    }
  }

  /** The permission_types table is reference data with one row per table name. */
  ghost predicate TypeNamesDistinct(types: map<int, PermissionType>)
  {
    forall i, j :: i in types && j in types && types[i].tableName == types[j].tableName ==> i == j
  }

  predicate HasType(types: map<int, PermissionType>, name: string)
  {
    exists k :: k in types && types[k].tableName == name
  }

  /** `PermissionType.findBy('table_name', name).id`. */
  function TypeIdOf(types: map<int, PermissionType>, name: string): (id: int)
    requires TypeNamesDistinct(types) && HasType(types, name)
    ensures id in types && types[id].tableName == name
    ensures forall k :: k in types && types[k].tableName == name ==> k == id
  {
    var k :| k in types && types[k].tableName == name; k
  }

  /** `candidate.notes().where('id', id).first()` (or jobs, logs) finds a row. */
  predicate BelongsTo(rows: map<int, Entry>, id: int, candidateId: int)
  {
    id in rows && rows[id].candidateId == candidateId
  }

  /** `candidate.notes().fetch()` (or jobs, logs): the rows whose candidate_id is the candidate's. */
  function EntriesOf(rows: map<int, Entry>, candidateId: int): (r: map<int, Entry>)
    ensures forall k :: k in r <==> BelongsTo(rows, k, candidateId)
    ensures forall k :: k in r ==> k in rows && r[k] == rows[k]
  {
    map k | k in rows && rows[k].candidateId == candidateId :: rows[k]
  }

  /** `coach.recruiters().fetch()`: the recruiters assigned to the coach. */
  function RecruitersOf(recruiters: map<int, Recruiter>, coachRecruiter: map<int, Assignment>, coachId: int): (r: map<int, Recruiter>)
    ensures forall k :: k in r <==> Assigned(recruiters, coachRecruiter, coachId, k)
    ensures forall k :: k in r ==> k in recruiters && r[k] == recruiters[k]
  {
    map k | k in recruiters && Assigned(recruiters, coachRecruiter, coachId, k) :: recruiters[k]
  }

  /** `coach.recruiters().detach([r])`: every pivot row linking this coach to r goes, the others stay. */
  function Detach(coachRecruiter: map<int, Assignment>, coachId: int, recruiterId: int): (r: map<int, Assignment>)
    ensures forall k :: k in r <==> k in coachRecruiter && coachRecruiter[k] != Assignment(coachId, recruiterId)
    ensures forall k :: k in r ==> r[k] == coachRecruiter[k]
  {
    map k | k in coachRecruiter && coachRecruiter[k] != Assignment(coachId, recruiterId) :: coachRecruiter[k]
  }

  /** Ownership is tried first: an owner reaches the candidate whatever the permissions table holds. */
  lemma DirectOwnershipComesFirst(candidates: map<int, Candidate>, p1: map<int, Permission>, p2: map<int, Permission>,
                                  recruiterId: int, typeId: int, candidateId: int)
    requires Owns(candidates, recruiterId, candidateId)
    ensures ResolveCandidate(candidates, p1, Some(recruiterId), typeId, candidateId) == Some(candidateId)
    ensures ResolveCandidate(candidates, p1, Some(recruiterId), typeId, candidateId)
         == ResolveCandidate(candidates, p2, Some(recruiterId), typeId, candidateId)
  {
  }

  /**
   * The grant lookup does not look at coach_id: two permission tables that differ only in the
   * granting coach of their rows grant the same accesses.
   */
  lemma GrantIgnoresCoach(p1: map<int, Permission>, p2: map<int, Permission>, recruiterId: int, typeId: int, candidateId: int)
    requires p1.Keys == p2.Keys
    requires forall k :: k in p1 ==> p1[k].(coachId := 0) == p2[k].(coachId := 0)
    ensures HasGrant(p1, recruiterId, typeId, candidateId) == HasGrant(p2, recruiterId, typeId, candidateId)
  {
  }

  /** A newly issued grant gives its recruiter access to its candidate for its permission type. */
  lemma IssuedGrantResolves(candidates: map<int, Candidate>, permissions: map<int, Permission>, id: int, grant: Permission)
    requires grant.candidateId in candidates
    ensures ResolveCandidate(candidates, permissions[id := grant], Some(grant.recruiterId), grant.permissionTypeId, grant.candidateId)
         == Some(grant.candidateId)
  {
    var p := permissions[id := grant];
    assert id in p && Matches(p[id], grant.recruiterId, grant.permissionTypeId, grant.candidateId);
  }

  /**
   * Permission types do not carry over: adding a grant (under a fresh id) of another type leaves the
   * resolution for this type exactly as it was.
   */
  lemma OtherTypeGrantChangesNothing(candidates: map<int, Candidate>, permissions: map<int, Permission>, id: int,
                                     grant: Permission, recruiter: Option<int>, typeId: int, candidateId: int)
    requires id !in permissions
    requires grant.permissionTypeId != typeId
    ensures ResolveCandidate(candidates, permissions[id := grant], recruiter, typeId, candidateId)
         == ResolveCandidate(candidates, permissions, recruiter, typeId, candidateId)
  {
    if recruiter.Some? {
      var p := permissions[id := grant];
      if HasGrant(p, recruiter.value, typeId, candidateId) {
        var k :| k in p && Matches(p[k], recruiter.value, typeId, candidateId);
        assert k != id;
        assert k in permissions && Matches(permissions[k], recruiter.value, typeId, candidateId);
      }
      if HasGrant(permissions, recruiter.value, typeId, candidateId) {
        var k :| k in permissions && Matches(permissions[k], recruiter.value, typeId, candidateId);
        assert k in p && p[k] == permissions[k];
      }
    }
  }

  /**
   * Revocation takes effect at once: when the removed row was the recruiter's only matching grant and
   * the recruiter does not own the candidate, the candidate no longer resolves.
   */
  lemma RevokingOnlyGrantEndsAccess(candidates: map<int, Candidate>, permissions: map<int, Permission>, id: int,
                                    recruiterId: int, typeId: int, candidateId: int)
    requires !Owns(candidates, recruiterId, candidateId)
    requires forall k :: k in permissions && k != id ==> !Matches(permissions[k], recruiterId, typeId, candidateId)
    ensures ResolveCandidate(candidates, permissions - {id}, Some(recruiterId), typeId, candidateId) == None
  {
  }

  /**
   * A detach ends exactly one assignment: the detached pair is no longer assigned, and every other
   * (coach, recruiter) pair is assigned afterwards exactly when it was before.
   */
  lemma DetachEndsOnlyThatAssignment(recruiters: map<int, Recruiter>, coachRecruiter: map<int, Assignment>,
                                     coachId: int, recruiterId: int, c: int, r: int)
    ensures !Assigned(recruiters, Detach(coachRecruiter, coachId, recruiterId), coachId, recruiterId)
    ensures (c, r) != (coachId, recruiterId) ==>
              (Assigned(recruiters, Detach(coachRecruiter, coachId, recruiterId), c, r) <==> Assigned(recruiters, coachRecruiter, c, r))
  {
  }

  /** After a detach from the recruiter's last coach, no pivot row refers to the recruiter. */
  lemma DetachFromLastCoachLeavesNoRow(coachRecruiter: map<int, Assignment>, coachId: int, recruiterId: int)
    requires forall k :: k in coachRecruiter && coachRecruiter[k].recruiterId == recruiterId ==> coachRecruiter[k].coachId == coachId
    ensures forall k :: k in Detach(coachRecruiter, coachId, recruiterId) ==> Detach(coachRecruiter, coachId, recruiterId)[k].recruiterId != recruiterId
  {
  }
}
