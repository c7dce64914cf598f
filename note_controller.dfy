/**
 * Notes of a candidate (routes candidates/:candidate_id/notes, behind the recruiter-or-delegated-coach
 * gate). The acting recruiter is the one the gate put on the request, or else the authenticated
 * user's recruiter; the candidate is reached by ownership first and by an exact 'Notes' grant second.
 */
module NoteController {
  import opened Records
  import opened Access
  import opened Database
  import opened Http

  const TypeName := "Notes"

  const RecruiterMissing := "The recruiter was not found, could not create a note"
  const Created := "The note was created successfully"
  const CandidateMissingOnStore := "The candidate was not found, could not create a note"
  const Found := "The note was found successfully"
  const CandidateMissingOnShow := "The candidate was not found, could not show the note"
  const NoteMissingOnShow := "The note was not found"
  const Updated := "The note was updated"
  const CandidateMissingOnUpdate := "The candidate was not found, could not update the note"
  const NoteMissingOnUpdate := "The note you tried to edit doesn't exist"
  const Deleted := "The note was deleted"
  const CandidateMissingOnDestroy := "The candidate was not found, could not delete the note"
  const NoteMissingOnDestroy := "The note you tried to delete doesn't exists"
  const SearchFailed := "Something went wrong when searching a note"
  const UpdateFailed := "Something went wrong when updating a note"
  const DestroyFailed := "Something went wrong when deleting a note"

  /**
   * `getRecruiter`: with `middleware_coach` set, the recruiter row the gate named (none if it no
   * longer exists); otherwise the authenticated user's recruiter.
   */
  function GetRecruiter(recruiters: map<int, Recruiter>, middlewareCoach: bool, middlewareRecruiterId: int,
                        authRecruiter: Option<int>): (r: Option<int>)
    ensures middlewareCoach ==> (r.Some? <==> middlewareRecruiterId in recruiters)
    ensures middlewareCoach && r.Some? ==> r.value == middlewareRecruiterId
    ensures !middlewareCoach ==> r == authRecruiter
  {
    if middlewareCoach then
      (if middlewareRecruiterId in recruiters then Some(middlewareRecruiterId) else None)
    else authRecruiter
  }

  /** The acting recruiter of a request, over the tables `s`. */
  ghost function Actor(s: Tables, req: Request, authRecruiter: Option<int>): Option<int>
    reads req
  {
    GetRecruiter(s.recruiters.rows, req.middlewareCoach, req.middlewareRecruiterId, authRecruiter)
  }

  /** The candidate a note request works on, over the tables `s`. */
  ghost function Scope(s: Tables, req: Request, authRecruiter: Option<int>, candidateId: int): Option<int>
    reads req
    requires TypeNamesDistinct(s.permissionTypes) && HasType(s.permissionTypes, TypeName)
  {
    ResolveCandidate(s.candidates.rows, s.permissions.rows, Actor(s, req, authRecruiter),
                     TypeIdOf(s.permissionTypes, TypeName), candidateId)
  }

  /** `index`: every note of the resolved candidate, or an empty list when nothing resolves. */
  method Index(db: Db, req: Request, authRecruiter: Option<int>, candidateId: int) returns (notes: map<int, Entry>)
    requires db.Valid() && HasType(db.permissionTypes, TypeName)
    ensures Scope(db.Snapshot(), req, authRecruiter, candidateId).Some? ==>
              forall k :: k in notes <==> BelongsTo(db.notes.rows, k, candidateId)
    ensures Scope(db.Snapshot(), req, authRecruiter, candidateId).None? ==> notes == map[]
    ensures forall k :: k in notes ==> k in db.notes.rows && notes[k] == db.notes.rows[k]
  {
    var recruiter := GetRecruiter(db.recruiters.rows, req.middlewareCoach, req.middlewareRecruiterId, authRecruiter);
    var typeId := TypeIdOf(db.permissionTypes, TypeName);
    notes := map[];
    if recruiter.Some? {
      var candidate := LookupCandidate(db.candidates.rows, db.permissions.rows, recruiter.value, typeId, candidateId);
      if candidate.Some? {
        notes := EntriesOf(db.notes.rows, candidate.value);
      }
    }
  }

  /**
   * `store`: with a resolved candidate, one new note carrying the title, the description, the
   * candidate and the acting recruiter, and 201; otherwise 404 and no insert.
   */
  method Store(db: Db, req: Request, authRecruiter: Option<int>, candidateId: int, title: string, description: string)
    returns (res: Response<Row<Entry>>)
    requires db.Valid() && HasType(db.permissionTypes, TypeName)
    modifies db
    ensures db.Valid() && db.Snapshot() == old(db.Snapshot()).(notes := db.notes)
    ensures Actor(old(db.Snapshot()), req, authRecruiter).None? ==>
              res == Response(404, RecruiterMissing, None) && db.notes == old(db.notes)
    ensures Actor(old(db.Snapshot()), req, authRecruiter).Some? &&
            Scope(old(db.Snapshot()), req, authRecruiter, candidateId).None? ==>
              res == Response(404, CandidateMissingOnStore, None) && db.notes == old(db.notes)
    ensures Scope(old(db.Snapshot()), req, authRecruiter, candidateId).Some? ==>
              var note := Entry(title, description, candidateId, Actor(old(db.Snapshot()), req, authRecruiter).value);
              var id := old(db.notes.next);
              && res == Response(201, Created, Some(Row(id, note)))
              && id !in old(db.notes.rows)
              && db.notes.rows == old(db.notes.rows)[id := note] && db.notes.next == old(db.notes.next) + 1
  {
    var recruiter := GetRecruiter(db.recruiters.rows, req.middlewareCoach, req.middlewareRecruiterId, authRecruiter);
    var typeId := TypeIdOf(db.permissionTypes, TypeName);
    var note: Option<Row<Entry>> := None;
    var message := Created;
    var status := 201;
    if recruiter.Some? {
      var candidate := LookupCandidate(db.candidates.rows, db.permissions.rows, recruiter.value, typeId, candidateId);
      if candidate.Some? {
        var row := Entry(title, description, candidateId, recruiter.value);
        note := Some(Row(db.notes.next, row));
        db.notes := db.notes.Insert(row);
      } else {
        message := CandidateMissingOnStore;
        status := 404;
      }
    } else {
      message := RecruiterMissing;
      status := 404;
    }
    res := Response(status, message, note);
  }

  /** `show`: the note with this id among the resolved candidate's notes, else 404; 500 without a recruiter. */
  method Show(db: Db, req: Request, authRecruiter: Option<int>, candidateId: int, id: int) returns (res: Response<Row<Entry>>)
    requires db.Valid() && HasType(db.permissionTypes, TypeName)
    ensures Actor(db.Snapshot(), req, authRecruiter).None? ==> res == Response(500, SearchFailed, None)
    ensures Actor(db.Snapshot(), req, authRecruiter).Some? && Scope(db.Snapshot(), req, authRecruiter, candidateId).None? ==>
              res == Response(404, CandidateMissingOnShow, None)
    ensures Scope(db.Snapshot(), req, authRecruiter, candidateId).Some? && !BelongsTo(db.notes.rows, id, candidateId) ==>
              res == Response(404, NoteMissingOnShow, None)
    ensures Scope(db.Snapshot(), req, authRecruiter, candidateId).Some? && BelongsTo(db.notes.rows, id, candidateId) ==>
              res == Response(200, Found, Some(Row(id, db.notes.rows[id])))
  {
    var recruiter := GetRecruiter(db.recruiters.rows, req.middlewareCoach, req.middlewareRecruiterId, authRecruiter);
    var typeId := TypeIdOf(db.permissionTypes, TypeName);
    if recruiter.None? {
      // a missing recruiter is dereferenced inside the guarded block
      return Response(500, SearchFailed, None);
    }
    var note: Option<Row<Entry>> := None;
    var message := Found;
    var status := 200;
    var candidate := LookupCandidate(db.candidates.rows, db.permissions.rows, recruiter.value, typeId, candidateId);
    if candidate.Some? {
      if BelongsTo(db.notes.rows, id, candidate.value) {
        note := Some(Row(id, db.notes.rows[id]));
      } else {
        message := NoteMissingOnShow;
        status := 404;
      }
    } else {
      message := CandidateMissingOnShow;
      status := 404;
    }
    res := Response(status, message, note);
  }

  /**
   * `update`: merges title and description into a note of the resolved candidate; nothing else changes.
   * Without a recruiter the guarded block fails: 500.
   */
  method Update(db: Db, req: Request, authRecruiter: Option<int>, candidateId: int, id: int, title: string, description: string)
    returns (res: Response<Row<Entry>>)
    requires db.Valid() && HasType(db.permissionTypes, TypeName)
    modifies db
    ensures db.Valid() && db.Snapshot() == old(db.Snapshot()).(notes := db.notes)
    ensures Actor(old(db.Snapshot()), req, authRecruiter).None? ==> res == Response(500, UpdateFailed, None) && db.notes == old(db.notes)
    ensures Actor(old(db.Snapshot()), req, authRecruiter).Some? && Scope(old(db.Snapshot()), req, authRecruiter, candidateId).None? ==>
              res == Response(404, CandidateMissingOnUpdate, None) && db.notes == old(db.notes)
    ensures Scope(old(db.Snapshot()), req, authRecruiter, candidateId).Some? && !BelongsTo(old(db.notes.rows), id, candidateId) ==>
              res == Response(404, NoteMissingOnUpdate, None) && db.notes == old(db.notes)
    ensures Scope(old(db.Snapshot()), req, authRecruiter, candidateId).Some? && BelongsTo(old(db.notes.rows), id, candidateId) ==>
              var note := old(db.notes.rows)[id].(title := title, description := description);
              res == Response(200, Updated, Some(Row(id, note))) && db.notes.rows == old(db.notes.rows)[id := note] && db.notes.next == old(db.notes.next)
  {
    var recruiter := GetRecruiter(db.recruiters.rows, req.middlewareCoach, req.middlewareRecruiterId, authRecruiter);
    var typeId := TypeIdOf(db.permissionTypes, TypeName);
    if recruiter.None? {
      // a missing recruiter is dereferenced inside the guarded block
      return Response(500, UpdateFailed, None);
    }
    var note: Option<Row<Entry>> := None;
    var message := Updated;
    var status := 200;
    var candidate := LookupCandidate(db.candidates.rows, db.permissions.rows, recruiter.value, typeId, candidateId);
    if candidate.Some? {
      if BelongsTo(db.notes.rows, id, candidate.value) {
        var merged := db.notes.rows[id].(title := title, description := description);
        db.notes := db.notes.Put(id, merged);
        note := Some(Row(id, merged));
      } else {
        message := NoteMissingOnUpdate;
        status := 404;
      }
    } else {
      message := CandidateMissingOnUpdate;
      status := 404;
    }
    res := Response(status, message, note);
  }

  /**
   * `destroy`: deletes exactly the matched note of the resolved candidate, else 404 and no deletion.
   * Without a recruiter the guarded block fails: 500.
   */
  method Destroy(db: Db, req: Request, authRecruiter: Option<int>, candidateId: int, id: int) returns (res: Response<Row<Entry>>)
    requires db.Valid() && HasType(db.permissionTypes, TypeName)
    modifies db
    ensures db.Valid() && db.Snapshot() == old(db.Snapshot()).(notes := db.notes)
    ensures Actor(old(db.Snapshot()), req, authRecruiter).None? ==> res == Response(500, DestroyFailed, None) && db.notes == old(db.notes)
    ensures Actor(old(db.Snapshot()), req, authRecruiter).Some? && Scope(old(db.Snapshot()), req, authRecruiter, candidateId).None? ==>
              res == Response(404, CandidateMissingOnDestroy, None) && db.notes == old(db.notes)
    ensures Scope(old(db.Snapshot()), req, authRecruiter, candidateId).Some? && !BelongsTo(old(db.notes.rows), id, candidateId) ==>
              res == Response(404, NoteMissingOnDestroy, None) && db.notes == old(db.notes)
    ensures Scope(old(db.Snapshot()), req, authRecruiter, candidateId).Some? && BelongsTo(old(db.notes.rows), id, candidateId) ==>
              res == Response(200, Deleted, Some(Row(id, old(db.notes.rows)[id]))) && db.notes.rows == old(db.notes.rows) - {id} && db.notes.next == old(db.notes.next)
  {
    var recruiter := GetRecruiter(db.recruiters.rows, req.middlewareCoach, req.middlewareRecruiterId, authRecruiter);
    var typeId := TypeIdOf(db.permissionTypes, TypeName);
    if recruiter.None? {
      // a missing recruiter is dereferenced inside the guarded block
      return Response(500, DestroyFailed, None);
    }
    var note: Option<Row<Entry>> := None;
    var message := Deleted;
    var status := 200;
    var candidate := LookupCandidate(db.candidates.rows, db.permissions.rows, recruiter.value, typeId, candidateId);
    if candidate.Some? {
      if BelongsTo(db.notes.rows, id, candidate.value) {
        note := Some(Row(id, db.notes.rows[id]));
        db.notes := db.notes.Delete(id);
      } else {
        message := NoteMissingOnDestroy;
        status := 404;
      }
    } else {
      message := CandidateMissingOnDestroy;
      status := 404;
    }
    res := Response(status, message, note);
  }
}
