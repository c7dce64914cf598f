/**
 * Recruiters of a coach, the coach named by `coach_id` in the request body. Creating a recruiter
 * (row plus pivot row) and deleting one (pivot detach plus row delete) each run in one transaction:
 * either both writes happen or neither does.
 */
module RecruiterController {
  import opened Records
  import opened Access
  import opened Database
  import opened Http

  const Created := "The recruiter was created successfully"
  const StoreFailed := "The recruiter could not be created"
  const Found := "The recruiter was found successfully"
  const CoachMissing := "The coach could not be found"
  const RecruiterMissingOnShow := "The recruiter could not be found"
  const Updated := "The recruiter was updated"
  const RecruiterMissingOnUpdate := "The recruit could not be found"
  const Deleted := "The recruiter was deleted"
  const DestroyFailed := "Something went wrong when deleting a recruiter"

  /** `index`: the recruiters assigned to the coach, or the empty object (None) when the coach does not exist. */
  method Index(db: Db, coachId: int) returns (recruiters: Option<map<int, Recruiter>>)
    ensures recruiters.Some? <==> coachId in db.coaches.rows
    ensures recruiters.Some? ==> forall k :: k in recruiters.value <==> Assigned(db.recruiters.rows, db.coachRecruiter.rows, coachId, k)
    ensures recruiters.Some? ==> forall k :: k in recruiters.value ==> k in db.recruiters.rows && recruiters.value[k] == db.recruiters.rows[k]
  {
    recruiters := None;
    if coachId in db.coaches.rows {
      recruiters := Some(RecruitersOf(db.recruiters.rows, db.coachRecruiter.rows, coachId));
    }
  }

  /**
   * `store`: a missing coach aborts before any write; `attachFails` stands for a failure of the pivot
   * insert after the recruiter row was written, which the rollback undoes. Either way 500 and no table
   * changes. Otherwise one new recruiter (with no user) and one pivot row linking it to the coach, 201.
   */
  method Store(db: Db, coachId: int, name: string, attachFails: bool) returns (res: Response<Row<Recruiter>>)
    requires db.Valid()
    modifies db
    ensures db.Valid()
    ensures db.Snapshot() == old(db.Snapshot()).(recruiters := db.recruiters, coachRecruiter := db.coachRecruiter)
    ensures coachId !in old(db.coaches.rows) || attachFails ==>
              res == Response(500, StoreFailed, None) && db.Snapshot() == old(db.Snapshot())
    ensures coachId in old(db.coaches.rows) && !attachFails ==>
              var id := old(db.recruiters.next);
              var recruiter := Recruiter(name, None);
              && res == Response(201, Created, Some(Row(id, recruiter)))
              && id !in old(db.recruiters.rows)
              && db.recruiters.rows == old(db.recruiters.rows)[id := recruiter] && db.recruiters.next == old(db.recruiters.next) + 1
              && db.coachRecruiter.rows == old(db.coachRecruiter.rows)[old(db.coachRecruiter.next) := Assignment(coachId, id)] && db.coachRecruiter.next == old(db.coachRecruiter.next) + 1
  {
    var recruiters, coachRecruiter := db.recruiters, db.coachRecruiter;
    if coachId !in db.coaches.rows {
      return Response(500, StoreFailed, None);
    }
    var row := Recruiter(name, None);
    var recruiter := Row(db.recruiters.next, row);
    db.recruiters := db.recruiters.Insert(row);
    if attachFails {
      // rollback
      db.recruiters, db.coachRecruiter := recruiters, coachRecruiter;
      return Response(500, StoreFailed, None);
    }
    db.coachRecruiter := db.coachRecruiter.Insert(Assignment(coachId, recruiter.id));
    res := Response(201, Created, Some(recruiter));
  }

  /** `show`: 404 when the coach does not exist or the recruiter is not one of its recruiters. */
  method Show(db: Db, coachId: int, id: int) returns (res: Response<Row<Recruiter>>)
    ensures coachId !in db.coaches.rows ==> res == Response(404, CoachMissing, None)
    ensures coachId in db.coaches.rows && !Assigned(db.recruiters.rows, db.coachRecruiter.rows, coachId, id) ==>
              res == Response(404, RecruiterMissingOnShow, None)
    ensures coachId in db.coaches.rows && Assigned(db.recruiters.rows, db.coachRecruiter.rows, coachId, id) ==>
              res == Response(200, Found, Some(Row(id, db.recruiters.rows[id])))
  {
    var recruiter: Option<Row<Recruiter>> := None;
    var message := Found;
    var status := 200;
    if coachId in db.coaches.rows {
      if Assigned(db.recruiters.rows, db.coachRecruiter.rows, coachId, id) {
        recruiter := Some(Row(id, db.recruiters.rows[id]));
      } else {
        message := RecruiterMissingOnShow;
        status := 404;
      }
    } else {
      message := CoachMissing;
      status := 404;
    }
    res := Response(status, message, recruiter);
  }

  /** `update`: renames one of the coach's recruiters; its user link and every other row stay. */
  method Update(db: Db, coachId: int, id: int, name: string) returns (res: Response<Row<Recruiter>>)
    requires db.Valid()
    modifies db
    ensures db.Valid() && db.Snapshot() == old(db.Snapshot()).(recruiters := db.recruiters)
    ensures coachId !in old(db.coaches.rows) ==> res == Response(404, CoachMissing, None) && db.recruiters == old(db.recruiters)
    ensures coachId in old(db.coaches.rows) && !Assigned(old(db.recruiters.rows), old(db.coachRecruiter.rows), coachId, id) ==>
              res == Response(404, RecruiterMissingOnUpdate, None) && db.recruiters == old(db.recruiters)
    ensures coachId in old(db.coaches.rows) && Assigned(old(db.recruiters.rows), old(db.coachRecruiter.rows), coachId, id) ==>
              var recruiter := old(db.recruiters.rows)[id].(name := name);
              res == Response(200, Updated, Some(Row(id, recruiter))) && db.recruiters.rows == old(db.recruiters.rows)[id := recruiter] && db.recruiters.next == old(db.recruiters.next)
  {
    var recruiter: Option<Row<Recruiter>> := None;
    var message := Updated;
    var status := 200;
    if coachId in db.coaches.rows {
      if Assigned(db.recruiters.rows, db.coachRecruiter.rows, coachId, id) {
        var merged := db.recruiters.rows[id].(name := name);
        db.recruiters := db.recruiters.Put(id, merged);
        recruiter := Some(Row(id, merged));
      } else {
        message := RecruiterMissingOnUpdate;
        status := 404;
      }
    } else {
      message := CoachMissing;
      status := 404;
    }
    res := Response(status, message, recruiter);
  }

  /**
   * `destroy`: a missing coach or a recruiter not assigned to it aborts with 500 (not 404), and
   * `deleteFails` stands for a failure of the row delete after the detach, which the rollback undoes;
   * all three leave every table as it was. Otherwise the pivot rows linking this coach to the
   * recruiter go, the recruiter row goes, and 200.
   */
  method Destroy(db: Db, coachId: int, id: int, deleteFails: bool) returns (res: Response<Row<Recruiter>>)
    requires db.Valid()
    modifies db
    ensures db.Valid()
    ensures db.Snapshot() == old(db.Snapshot()).(recruiters := db.recruiters, coachRecruiter := db.coachRecruiter)
    ensures coachId !in old(db.coaches.rows) || !Assigned(old(db.recruiters.rows), old(db.coachRecruiter.rows), coachId, id) || deleteFails ==>
              res == Response(500, DestroyFailed, None) && db.Snapshot() == old(db.Snapshot())
    ensures coachId in old(db.coaches.rows) && Assigned(old(db.recruiters.rows), old(db.coachRecruiter.rows), coachId, id) && !deleteFails ==>
              && res == Response(200, Deleted, Some(Row(id, old(db.recruiters.rows)[id])))
              && db.recruiters.rows == old(db.recruiters.rows) - {id} && db.recruiters.next == old(db.recruiters.next)
              && db.coachRecruiter.rows == Detach(old(db.coachRecruiter.rows), coachId, id) && db.coachRecruiter.next == old(db.coachRecruiter.next)
  {
    var recruiters, coachRecruiter := db.recruiters, db.coachRecruiter;
    if coachId !in db.coaches.rows {
      return Response(500, DestroyFailed, None);
    }
    if !Assigned(db.recruiters.rows, db.coachRecruiter.rows, coachId, id) {
      return Response(500, DestroyFailed, None);
    }
    var recruiter := Row(id, db.recruiters.rows[id]);
    db.coachRecruiter := db.coachRecruiter.(rows := Detach(db.coachRecruiter.rows, coachId, id));
    if deleteFails {
      // rollback
      db.recruiters, db.coachRecruiter := recruiters, coachRecruiter;
      return Response(500, DestroyFailed, None);
    }
    db.recruiters := db.recruiters.Delete(id);
    res := Response(200, Deleted, Some(recruiter));
  }

  /**
   * A recruiter created by `store` is listed by `index` for its coach: the new pivot row assigns
   * the new recruiter to the coach.
   */
  lemma CreatedRecruiterIsAssigned(recruiters: Table<Recruiter>, coachRecruiter: Table<Assignment>, coachId: int, name: string)
    requires recruiters.Valid() && coachRecruiter.Valid()
    ensures var id := recruiters.next;
            Assigned(recruiters.Insert(Recruiter(name, None)).rows, coachRecruiter.Insert(Assignment(coachId, id)).rows, coachId, id)
  {
    var pivot := coachRecruiter.Insert(Assignment(coachId, recruiters.next));
    assert pivot.rows[coachRecruiter.next] == Assignment(coachId, recruiters.next);
  }
}
