/**
 * Jobs of a candidate, in the older style: the recruiter and the candidate come from the request
 * body, scope is direct ownership only, and permission grants are never consulted.
 */
module JobController {
  import opened Records
  import opened Access
  import opened Database
  import opened Http

  const RecruiterMissing := "The recruiter was not found, could not create a job"
  const Created := "The job was created successfully"
  const CandidateMissingOnStore := "The candidate was not found, could not create a job"
  const Found := "The job was found successfully"
  const CandidateMissingOnShow := "The candidate was not found, could not show the job"
  const JobMissingOnShow := "The job was not found"
  const Updated := "The job was updated"
  const CandidateMissingOnUpdate := "The candidate was not found, could not update the job"
  const JobMissingOnUpdate := "The job you tried to edit doesn't exist"
  const Deleted := "The job was deleted"
  const CandidateMissingOnDestroy := "The candidate was not found, could not delete the job"
  const JobMissingOnDestroy := "The job you tried to delete doesn't exists"

  /**
   * `index`: the candidate's jobs when the recruiter exists and owns the candidate; otherwise the
   * empty object, modelled as None.
   */
  method Index(db: Db, recruiterId: int, candidateId: int) returns (jobs: Option<map<int, Entry>>)
    ensures jobs.Some? <==> recruiterId in db.recruiters.rows && Owns(db.candidates.rows, recruiterId, candidateId)
    ensures jobs.Some? ==> forall k :: k in jobs.value <==> BelongsTo(db.jobs.rows, k, candidateId)
    ensures jobs.Some? ==> forall k :: k in jobs.value ==> k in db.jobs.rows && jobs.value[k] == db.jobs.rows[k]
  {
    jobs := None;
    if recruiterId in db.recruiters.rows {
      var candidate := OwnedCandidate(db.candidates.rows, recruiterId, candidateId);
      if candidate.Some? {
        jobs := Some(EntriesOf(db.jobs.rows, candidate.value));
      }
    }
  }

  /**
   * `store`: 404 without an insert when the recruiter does not exist or does not own the candidate;
   * otherwise one new job with the body's recruiter and candidate, and 201.
   */
  method Store(db: Db, recruiterId: int, candidateId: int, title: string, description: string)
    returns (res: Response<Row<Entry>>)
    requires db.Valid()
    modifies db
    ensures db.Valid() && db.Snapshot() == old(db.Snapshot()).(jobs := db.jobs)
    ensures recruiterId !in old(db.recruiters.rows) ==>
              res == Response(404, RecruiterMissing, None) && db.jobs == old(db.jobs)
    ensures recruiterId in old(db.recruiters.rows) && !Owns(old(db.candidates.rows), recruiterId, candidateId) ==>
              res == Response(404, CandidateMissingOnStore, None) && db.jobs == old(db.jobs)
    ensures recruiterId in old(db.recruiters.rows) && Owns(old(db.candidates.rows), recruiterId, candidateId) ==>
              var job := Entry(title, description, candidateId, recruiterId);
              var id := old(db.jobs.next);
              && res == Response(201, Created, Some(Row(id, job)))
              && id !in old(db.jobs.rows)
              && db.jobs.rows == old(db.jobs.rows)[id := job] && db.jobs.next == old(db.jobs.next) + 1
  {
    var job: Option<Row<Entry>> := None;
    var message := Created;
    var status := 201;
    if recruiterId in db.recruiters.rows {
      var candidate := OwnedCandidate(db.candidates.rows, recruiterId, candidateId);
      if candidate.Some? {
        var row := Entry(title, description, candidateId, recruiterId);
        job := Some(Row(db.jobs.next, row));
        db.jobs := db.jobs.Insert(row);
      } else {
        message := CandidateMissingOnStore;
        status := 404;
      }
    } else {
      message := RecruiterMissing;
      status := 404;
    }
    res := Response(status, message, job);
  }

  /** `show`: needs a candidate matching both the id and the recruiter_id, then the job under it; else 404. */
  method Show(db: Db, recruiterId: int, candidateId: int, id: int) returns (res: Response<Row<Entry>>)
    ensures !Owns(db.candidates.rows, recruiterId, candidateId) ==> res == Response(404, CandidateMissingOnShow, None)
    ensures Owns(db.candidates.rows, recruiterId, candidateId) && !BelongsTo(db.jobs.rows, id, candidateId) ==>
              res == Response(404, JobMissingOnShow, None)
    ensures Owns(db.candidates.rows, recruiterId, candidateId) && BelongsTo(db.jobs.rows, id, candidateId) ==>
              res == Response(200, Found, Some(Row(id, db.jobs.rows[id])))
  {
    var job: Option<Row<Entry>> := None;
    var message := Found;
    var status := 200;
    var candidate := OwnedCandidate(db.candidates.rows, recruiterId, candidateId);
    if candidate.Some? {
      if BelongsTo(db.jobs.rows, id, candidate.value) {
        job := Some(Row(id, db.jobs.rows[id]));
      } else {
        message := JobMissingOnShow;
        status := 404;
      }
    } else {
      message := CandidateMissingOnShow;
      status := 404;
    }
    res := Response(status, message, job);
  }

  /** `update`: merges title and description into the matched job only; recruiter and candidate stay. */
  method Update(db: Db, recruiterId: int, candidateId: int, id: int, title: string, description: string)
    returns (res: Response<Row<Entry>>)
    requires db.Valid()
    modifies db
    ensures db.Valid() && db.Snapshot() == old(db.Snapshot()).(jobs := db.jobs)
    ensures !Owns(old(db.candidates.rows), recruiterId, candidateId) ==>
              res == Response(404, CandidateMissingOnUpdate, None) && db.jobs == old(db.jobs)
    ensures Owns(old(db.candidates.rows), recruiterId, candidateId) && !BelongsTo(old(db.jobs.rows), id, candidateId) ==>
              res == Response(404, JobMissingOnUpdate, None) && db.jobs == old(db.jobs)
    ensures Owns(old(db.candidates.rows), recruiterId, candidateId) && BelongsTo(old(db.jobs.rows), id, candidateId) ==>
              var job := old(db.jobs.rows)[id].(title := title, description := description);
              res == Response(200, Updated, Some(Row(id, job))) && db.jobs.rows == old(db.jobs.rows)[id := job] && db.jobs.next == old(db.jobs.next)
  {
    var job: Option<Row<Entry>> := None;
    var message := Updated;
    var status := 200;
    var candidate := OwnedCandidate(db.candidates.rows, recruiterId, candidateId);
    if candidate.Some? {
      if BelongsTo(db.jobs.rows, id, candidate.value) {
        var merged := db.jobs.rows[id].(title := title, description := description);
        db.jobs := db.jobs.Put(id, merged);
        job := Some(Row(id, merged));
      } else {
        message := JobMissingOnUpdate;
        status := 404;
      }
    } else {
      message := CandidateMissingOnUpdate;
      status := 404;
    }
    res := Response(status, message, job);
  }

  /** `destroy`: deletes only the matched job; a job not under the candidate gives 404. */
  method Destroy(db: Db, recruiterId: int, candidateId: int, id: int) returns (res: Response<Row<Entry>>)
    requires db.Valid()
    modifies db
    ensures db.Valid() && db.Snapshot() == old(db.Snapshot()).(jobs := db.jobs)
    ensures !Owns(old(db.candidates.rows), recruiterId, candidateId) ==>
              res == Response(404, CandidateMissingOnDestroy, None) && db.jobs == old(db.jobs)
    ensures Owns(old(db.candidates.rows), recruiterId, candidateId) && !BelongsTo(old(db.jobs.rows), id, candidateId) ==>
              res == Response(404, JobMissingOnDestroy, None) && db.jobs == old(db.jobs)
    ensures Owns(old(db.candidates.rows), recruiterId, candidateId) && BelongsTo(old(db.jobs.rows), id, candidateId) ==>
              res == Response(200, Deleted, Some(Row(id, old(db.jobs.rows)[id]))) && db.jobs.rows == old(db.jobs.rows) - {id} && db.jobs.next == old(db.jobs.next)
  {
    var job: Option<Row<Entry>> := None;
    var message := Deleted;
    var status := 200;
    var candidate := OwnedCandidate(db.candidates.rows, recruiterId, candidateId);
    if candidate.Some? {
      if BelongsTo(db.jobs.rows, id, candidate.value) {
        job := Some(Row(id, db.jobs.rows[id]));
        db.jobs := db.jobs.Delete(id);
      } else {
        message := JobMissingOnDestroy;
        status := 404;
      }
    } else {
      message := CandidateMissingOnDestroy;
      status := 404;
    }
    res := Response(status, message, job);
  }
}
