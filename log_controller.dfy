/**
 * Logs of a candidate (routes candidates/:candidate_id/logs). Although the route sits behind the
 * recruiter-or-delegated-coach gate, this controller always acts as the authenticated user's
 * recruiter: it never reads the gate's delegation fields. The candidate is reached by ownership first
 * and by an exact 'Logs' grant second.
 */
module LogController {
  import opened Records
  import opened Access
  import opened Database
  import opened Http

  const TypeName := "Logs"

  const RecruiterMissing := "The recruiter was not found, could not create a log"
  const Created := "The log was created successfully"
  const CandidateMissingOnStore := "The candidate was not found, could not create a log"
  const Found := "The log was found successfully"
  const CandidateMissingOnShow := "The candidate was not found, could not show the log"
  const LogMissingOnShow := "The log was not found"
  const Updated := "The log was updated"
  const CandidateMissingOnUpdate := "The candidate was not found, could not update the log"
  const LogMissingOnUpdate := "The log you tried to edit doesn't exist"
  const Deleted := "The log was deleted"
  const CandidateMissingOnDestroy := "The candidate was not found, could not delete the log"
  const LogMissingOnDestroy := "The log you tried to delete doesn't exists"
  const SearchFailed := "Something went wrong when searching a log"
  const UpdateFailed := "Something went wrong when updating a log"
  const DestroyFailed := "Something went wrong when deleting a log"

  /** The candidate a log request works on, over the tables `s`. */
  ghost function Scope(s: Tables, authRecruiter: Option<int>, candidateId: int): Option<int>
    requires TypeNamesDistinct(s.permissionTypes) && HasType(s.permissionTypes, TypeName)
  {
    ResolveCandidate(s.candidates.rows, s.permissions.rows, authRecruiter,
                     TypeIdOf(s.permissionTypes, TypeName), candidateId)
  }

  /** `index`: every log of the resolved candidate, or an empty list when nothing resolves. */
  method Index(db: Db, authRecruiter: Option<int>, candidateId: int) returns (logs: map<int, Entry>)
    requires db.Valid() && HasType(db.permissionTypes, TypeName)
    ensures Scope(db.Snapshot(), authRecruiter, candidateId).Some? ==>
              forall k :: k in logs <==> BelongsTo(db.logs.rows, k, candidateId)
    ensures Scope(db.Snapshot(), authRecruiter, candidateId).None? ==> logs == map[]
    ensures forall k :: k in logs ==> k in db.logs.rows && logs[k] == db.logs.rows[k]
  {
    var recruiter := authRecruiter;
    var typeId := TypeIdOf(db.permissionTypes, TypeName);
    logs := map[];
    if recruiter.Some? {
      var candidate := LookupCandidate(db.candidates.rows, db.permissions.rows, recruiter.value, typeId, candidateId);
      if candidate.Some? {
        logs := EntriesOf(db.logs.rows, candidate.value);
      }
    }
  }

  /**
   * `store`: with a resolved candidate, one new log carrying the title, the description, the
   * candidate and the authenticated user's recruiter, and 201; otherwise 404 and no insert.
   */
  method Store(db: Db, authRecruiter: Option<int>, candidateId: int, title: string, description: string)
    returns (res: Response<Row<Entry>>)
    requires db.Valid() && HasType(db.permissionTypes, TypeName)
    modifies db
    ensures db.Valid() && db.Snapshot() == old(db.Snapshot()).(logs := db.logs)
    ensures authRecruiter.None? ==>
              res == Response(404, RecruiterMissing, None) && db.logs == old(db.logs)
    ensures authRecruiter.Some? &&
            Scope(old(db.Snapshot()), authRecruiter, candidateId).None? ==>
              res == Response(404, CandidateMissingOnStore, None) && db.logs == old(db.logs)
    ensures Scope(old(db.Snapshot()), authRecruiter, candidateId).Some? ==>
              var log := Entry(title, description, candidateId, authRecruiter.value);
              var id := old(db.logs.next);
              && res == Response(201, Created, Some(Row(id, log)))
              && id !in old(db.logs.rows)
              && db.logs.rows == old(db.logs.rows)[id := log] && db.logs.next == old(db.logs.next) + 1
  {
    var recruiter := authRecruiter;
    var typeId := TypeIdOf(db.permissionTypes, TypeName);
    var log: Option<Row<Entry>> := None;
    var message := Created;
    var status := 201;
    if recruiter.Some? {
      var candidate := LookupCandidate(db.candidates.rows, db.permissions.rows, recruiter.value, typeId, candidateId);
      if candidate.Some? {
        var row := Entry(title, description, candidateId, recruiter.value);
        log := Some(Row(db.logs.next, row));
        db.logs := db.logs.Insert(row);
      } else {
        message := CandidateMissingOnStore;
        status := 404;
      }
    } else {
      message := RecruiterMissing;
      status := 404;
    }
    res := Response(status, message, log);
  }

  /** `show`: the log with this id among the resolved candidate's logs, else 404; 500 without a recruiter. */
  method Show(db: Db, authRecruiter: Option<int>, candidateId: int, id: int) returns (res: Response<Row<Entry>>)
    requires db.Valid() && HasType(db.permissionTypes, TypeName)
    ensures authRecruiter.None? ==> res == Response(500, SearchFailed, None)
    ensures authRecruiter.Some? && Scope(db.Snapshot(), authRecruiter, candidateId).None? ==>
              res == Response(404, CandidateMissingOnShow, None)
    ensures Scope(db.Snapshot(), authRecruiter, candidateId).Some? && !BelongsTo(db.logs.rows, id, candidateId) ==>
              res == Response(404, LogMissingOnShow, None)
    ensures Scope(db.Snapshot(), authRecruiter, candidateId).Some? && BelongsTo(db.logs.rows, id, candidateId) ==>
              res == Response(200, Found, Some(Row(id, db.logs.rows[id])))
  {
    var recruiter := authRecruiter;
    var typeId := TypeIdOf(db.permissionTypes, TypeName);
    if recruiter.None? {
      // a missing recruiter is dereferenced inside the guarded block
      return Response(500, SearchFailed, None);
    }
    var log: Option<Row<Entry>> := None;
    var message := Found;
    var status := 200;
    var candidate := LookupCandidate(db.candidates.rows, db.permissions.rows, recruiter.value, typeId, candidateId);
    if candidate.Some? {
      if BelongsTo(db.logs.rows, id, candidate.value) {
        log := Some(Row(id, db.logs.rows[id]));
      } else {
        message := LogMissingOnShow;
        status := 404;
      }
    } else {
      message := CandidateMissingOnShow;
      status := 404;
    }
    res := Response(status, message, log);
  }

  /**
   * `update`: merges title and description into a log of the resolved candidate; nothing else changes.
   * Without a recruiter the guarded block fails: 500.
   */
  method Update(db: Db, authRecruiter: Option<int>, candidateId: int, id: int, title: string, description: string)
    returns (res: Response<Row<Entry>>)
    requires db.Valid() && HasType(db.permissionTypes, TypeName)
    modifies db
    ensures db.Valid() && db.Snapshot() == old(db.Snapshot()).(logs := db.logs)
    ensures authRecruiter.None? ==> res == Response(500, UpdateFailed, None) && db.logs == old(db.logs)
    ensures authRecruiter.Some? && Scope(old(db.Snapshot()), authRecruiter, candidateId).None? ==>
              res == Response(404, CandidateMissingOnUpdate, None) && db.logs == old(db.logs)
    ensures Scope(old(db.Snapshot()), authRecruiter, candidateId).Some? && !BelongsTo(old(db.logs.rows), id, candidateId) ==>
              res == Response(404, LogMissingOnUpdate, None) && db.logs == old(db.logs)
    ensures Scope(old(db.Snapshot()), authRecruiter, candidateId).Some? && BelongsTo(old(db.logs.rows), id, candidateId) ==>
              var log := old(db.logs.rows)[id].(title := title, description := description);
              res == Response(200, Updated, Some(Row(id, log))) && db.logs.rows == old(db.logs.rows)[id := log] && db.logs.next == old(db.logs.next)
  {
    var recruiter := authRecruiter;
    var typeId := TypeIdOf(db.permissionTypes, TypeName);
    if recruiter.None? {
      // a missing recruiter is dereferenced inside the guarded block
      return Response(500, UpdateFailed, None);
    }
    var log: Option<Row<Entry>> := None;
    var message := Updated;
    var status := 200;
    var candidate := LookupCandidate(db.candidates.rows, db.permissions.rows, recruiter.value, typeId, candidateId);
    if candidate.Some? {
      if BelongsTo(db.logs.rows, id, candidate.value) {
        var merged := db.logs.rows[id].(title := title, description := description);
        db.logs := db.logs.Put(id, merged);
        log := Some(Row(id, merged));
      } else {
        message := LogMissingOnUpdate;
        status := 404;
      }
    } else {
      message := CandidateMissingOnUpdate;
      status := 404;
    }
    res := Response(status, message, log);
  }

  /**
   * `destroy`: deletes exactly the matched log of the resolved candidate, else 404 and no deletion.
   * Without a recruiter the guarded block fails: 500.
   */
  method Destroy(db: Db, authRecruiter: Option<int>, candidateId: int, id: int) returns (res: Response<Row<Entry>>)
    requires db.Valid() && HasType(db.permissionTypes, TypeName)
    modifies db
    ensures db.Valid() && db.Snapshot() == old(db.Snapshot()).(logs := db.logs)
    ensures authRecruiter.None? ==> res == Response(500, DestroyFailed, None) && db.logs == old(db.logs)
    ensures authRecruiter.Some? && Scope(old(db.Snapshot()), authRecruiter, candidateId).None? ==>
              res == Response(404, CandidateMissingOnDestroy, None) && db.logs == old(db.logs)
    ensures Scope(old(db.Snapshot()), authRecruiter, candidateId).Some? && !BelongsTo(old(db.logs.rows), id, candidateId) ==>
              res == Response(404, LogMissingOnDestroy, None) && db.logs == old(db.logs)
    ensures Scope(old(db.Snapshot()), authRecruiter, candidateId).Some? && BelongsTo(old(db.logs.rows), id, candidateId) ==>
              res == Response(200, Deleted, Some(Row(id, old(db.logs.rows)[id]))) && db.logs.rows == old(db.logs.rows) - {id} && db.logs.next == old(db.logs.next)
  {
    var recruiter := authRecruiter;
    var typeId := TypeIdOf(db.permissionTypes, TypeName);
    if recruiter.None? {
      // a missing recruiter is dereferenced inside the guarded block
      return Response(500, DestroyFailed, None);
    }
    var log: Option<Row<Entry>> := None;
    var message := Deleted;
    var status := 200;
    var candidate := LookupCandidate(db.candidates.rows, db.permissions.rows, recruiter.value, typeId, candidateId);
    if candidate.Some? {
      if BelongsTo(db.logs.rows, id, candidate.value) {
        log := Some(Row(id, db.logs.rows[id]));
        db.logs := db.logs.Delete(id);
      } else {
        message := LogMissingOnDestroy;
        status := 404;
      }
    } else {
      message := CandidateMissingOnDestroy;
      status := 404;
    }
    res := Response(status, message, log);
  }
}
