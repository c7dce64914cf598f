/** Candidates of a recruiter, the recruiter named by `recruiter_id` in the request body. */
module CandidateController {
  import opened Records
  import opened Access
  import opened Database
  import opened Http

  const Created := "The candidate was created successfully"
  const RecruiterMissing := "The recruiter was not found, could not create a candidate"
  const Found := "The candidate was found successfully"
  const CandidateMissingOnShow := "The candidate was not found"
  const Updated := "The candidate was updated"
  const CandidateMissingOnUpdate := "The candidate you tried to edit doesn't exist"
  const Deleted := "The candidate was deleted"
  const CandidateMissingOnDestroy := "The candidate you tried to delete doesn't exists"

  /** The candidates query filtered on recruiter_id. */
  function CandidatesOf(candidates: map<int, Candidate>, recruiterId: int): (r: map<int, Candidate>)
    ensures forall k :: k in r <==> Owns(candidates, recruiterId, k)
    ensures forall k :: k in r ==> k in candidates && r[k] == candidates[k]
  {
    map k | k in candidates && candidates[k].recruiterId == recruiterId :: candidates[k]
  }

  /** `index`: exactly the candidates whose recruiter_id is the given one. */
  method Index(db: Db, recruiterId: int) returns (candidates: map<int, Candidate>)
    ensures forall k :: k in candidates <==> k in db.candidates.rows && db.candidates.rows[k].recruiterId == recruiterId
    ensures forall k :: k in candidates ==> candidates[k] == db.candidates.rows[k]
  {
    candidates := CandidatesOf(db.candidates.rows, recruiterId);
  }

  /** `store`: 404 and no insert for an unknown recruiter; otherwise one new candidate of that recruiter, 201. */
  method Store(db: Db, recruiterId: int, name: string) returns (res: Response<Row<Candidate>>)
    requires db.Valid()
    modifies db
    ensures db.Valid() && db.Snapshot() == old(db.Snapshot()).(candidates := db.candidates)
    ensures recruiterId !in old(db.recruiters.rows) ==>
              res == Response(404, RecruiterMissing, None) && db.candidates == old(db.candidates)
    ensures recruiterId in old(db.recruiters.rows) ==>
              var id := old(db.candidates.next);
              var candidate := Candidate(name, recruiterId);
              && res == Response(201, Created, Some(Row(id, candidate)))
              && id !in old(db.candidates.rows)
              && db.candidates.rows == old(db.candidates.rows)[id := candidate] && db.candidates.next == old(db.candidates.next) + 1
  {
    var candidate: Option<Row<Candidate>> := None;
    var message := Created;
    var status := 201;
    if recruiterId in db.recruiters.rows {
      var row := Candidate(name, recruiterId);
      candidate := Some(Row(db.candidates.next, row));
      db.candidates := db.candidates.Insert(row);
    } else {
      message := RecruiterMissing;
      status := 404;
    }
    res := Response(status, message, candidate);
  }

  /** `show`: 404 unless a candidate matches both the id and the recruiter_id. */
  method Show(db: Db, recruiterId: int, id: int) returns (res: Response<Row<Candidate>>)
    ensures !Owns(db.candidates.rows, recruiterId, id) ==> res == Response(404, CandidateMissingOnShow, None)
    ensures Owns(db.candidates.rows, recruiterId, id) ==> res == Response(200, Found, Some(Row(id, db.candidates.rows[id])))
  {
    var candidate: Option<Row<Candidate>> := None;
    var message := Found;
    var status := 200;
    if Owns(db.candidates.rows, recruiterId, id) {
      candidate := Some(Row(id, db.candidates.rows[id]));
    } else {
      message := CandidateMissingOnShow;
      status := 404;
    }
    res := Response(status, message, candidate);
  }

  /** `update`: renames an owned candidate; its recruiter and every other candidate stay. */
  method Update(db: Db, recruiterId: int, id: int, name: string) returns (res: Response<Row<Candidate>>)
    requires db.Valid()
    modifies db
    ensures db.Valid() && db.Snapshot() == old(db.Snapshot()).(candidates := db.candidates)
    ensures !Owns(old(db.candidates.rows), recruiterId, id) ==>
              res == Response(404, CandidateMissingOnUpdate, None) && db.candidates == old(db.candidates)
    ensures Owns(old(db.candidates.rows), recruiterId, id) ==>
              var candidate := Candidate(name, recruiterId);
              res == Response(200, Updated, Some(Row(id, candidate))) && db.candidates.rows == old(db.candidates.rows)[id := candidate] && db.candidates.next == old(db.candidates.next)
  {
    var candidate: Option<Row<Candidate>> := None;
    var message := Updated;
    var status := 200;
    if Owns(db.candidates.rows, recruiterId, id) {
      var merged := db.candidates.rows[id].(name := name);
      db.candidates := db.candidates.Put(id, merged);
      candidate := Some(Row(id, merged));
    } else {
      message := CandidateMissingOnUpdate;
      status := 404;
    }
    res := Response(status, message, candidate);
  }

  /** `destroy`: deletes an owned candidate only; otherwise 404 and nothing is removed. */
  method Destroy(db: Db, recruiterId: int, id: int) returns (res: Response<Row<Candidate>>)
    requires db.Valid()
    modifies db
    ensures db.Valid() && db.Snapshot() == old(db.Snapshot()).(candidates := db.candidates)
    ensures !Owns(old(db.candidates.rows), recruiterId, id) ==>
              res == Response(404, CandidateMissingOnDestroy, None) && db.candidates == old(db.candidates)
    ensures Owns(old(db.candidates.rows), recruiterId, id) ==>
              res == Response(200, Deleted, Some(Row(id, old(db.candidates.rows)[id]))) && db.candidates.rows == old(db.candidates.rows) - {id} && db.candidates.next == old(db.candidates.next)
  {
    var candidate: Option<Row<Candidate>> := None;
    var message := Deleted;
    var status := 200;
    if Owns(db.candidates.rows, recruiterId, id) {
      candidate := Some(Row(id, db.candidates.rows[id]));
      db.candidates := db.candidates.Delete(id);
    } else {
      message := CandidateMissingOnDestroy;
      status := 404;
    }
    res := Response(status, message, candidate);
  }

  /**
   * The candidates of distinct recruiters are disjoint, and a candidate created for a recruiter is
   * listed for that recruiter and for no other.
   */
  lemma CreatedCandidateListedForItsRecruiterOnly(candidates: Table<Candidate>, name: string, recruiterId: int, other: int)
    requires candidates.Valid()
    requires other != recruiterId
    ensures var t := candidates.Insert(Candidate(name, recruiterId));
            && candidates.next in CandidatesOf(t.rows, recruiterId)
            && candidates.next !in CandidatesOf(t.rows, other)
            && CandidatesOf(t.rows, other) == CandidatesOf(candidates.rows, other)
  {
  }
}
