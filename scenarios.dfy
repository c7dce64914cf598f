/**
 * The controllers called in sequence on a fresh store, every answer pinned by the postconditions: a
 * coach shares one recruiter's candidate with another recruiter through a 'Notes' grant, and the
 * grant's reach and its revocation follow.
 */
module Scenarios {
  import opened Records
  import opened Access
  import opened Database
  import opened Http
  import CoachController
  import RecruiterController
  import CandidateController
  import PermissionController
  import NoteController
  import LogController
  import JobController
  import RecruiterAuthVariant

  /** The permission_types reference rows. */
  function SeedTypes(): (types: map<int, PermissionType>)
    ensures TypeNamesDistinct(types)
    ensures HasType(types, "Jobs") && HasType(types, "Logs") && HasType(types, "Notes")
  {
    var types := map[1 := PermissionType("Jobs"), 2 := PermissionType("Logs"), 3 := PermissionType("Notes")];
    assert types[1].tableName == "Jobs" && types[2].tableName == "Logs" && types[3].tableName == "Notes";
    types
  }

  /** The tables once coach 1 has recruiters 1 and 2, candidate 1 is recruiter 1's, and recruiter 2 holds a 'Notes' grant on it. */
  function Shared(): (s: Tables)
    ensures TypeNamesDistinct(s.permissionTypes) && HasType(s.permissionTypes, "Notes") && HasType(s.permissionTypes, "Logs")
  {
    Tables(EmptyTable(), Table(map[1 := Coach("Carla", 1)], 2),
           Table(map[1 := Recruiter("Rita", None), 2 := Recruiter("Raul", None)], 3),
           Table(map[1 := Assignment(1, 1), 2 := Assignment(1, 2)], 3),
           Table(map[1 := Candidate("Alice", 1)], 2),
           EmptyTable(), EmptyTable(), EmptyTable(), SeedTypes(),
           Table(map[1 := Permission(2, 3, 1, 1)], 2))
  }

  /** Builds the shared state through the controllers; the grant request is answered 201. */
  method ShareNotes() returns (db: Db, granted: int)
    ensures fresh(db) && db.Valid() && db.Snapshot() == Shared()
    ensures granted == 201
  {
    db := new Db(SeedTypes());
    var _ := CoachController.Store(db, 1, "Carla");
    var _ := RecruiterController.Store(db, 1, "Rita", false);
    assert db.coachRecruiter == Table(map[1 := Assignment(1, 1)], 2);
    var _ := RecruiterController.Store(db, 1, "Raul", false);
    assert db.coachRecruiter == Table(map[1 := Assignment(1, 1), 2 := Assignment(1, 2)], 3);
    assert db.recruiters == Table(map[1 := Recruiter("Rita", None), 2 := Recruiter("Raul", None)], 3);
    var _ := CandidateController.Store(db, 1, "Alice");
    assert Assigned(db.recruiters.rows, db.coachRecruiter.rows, 1, 1) by {
      assert db.coachRecruiter.rows[1] == Assignment(1, 1);
    }
    assert Assigned(db.recruiters.rows, db.coachRecruiter.rows, 1, 2) by {
      assert db.coachRecruiter.rows[2] == Assignment(1, 2);
    }
    var r := PermissionController.Store(db, Some(1), 2, 1, 1, 3);
    granted := r.status;
  }

  /**
   * With the 'Notes' grant, recruiter 2 can add a note to recruiter 1's candidate (201) but not a log
   * nor a job (404 both: it holds no grant of either type and does not own the candidate).
   */
  method GrantReachesNotesOnly() returns (note: int, log: int, job: int)
    ensures note == 201 && log == 404 && job == 404
  {
    var db, _ := ShareNotes();
    assert TypeIdOf(db.permissionTypes, "Notes") == 3 by { assert db.permissionTypes[3].tableName == "Notes"; }
    assert TypeIdOf(db.permissionTypes, "Logs") == 2 by { assert db.permissionTypes[2].tableName == "Logs"; }
    assert HasGrant(db.permissions.rows, 2, 3, 1) by { assert db.permissions.rows[1] == Permission(2, 3, 1, 1); }
    var req := new Request();
    var n := NoteController.Store(db, req, Some(2), 1, "Call back", "Prefers mornings");
    note := n.status;
    var l := LogController.Store(db, Some(2), 1, "Called", "No answer");
    log := l.status;
    var j := JobController.Store(db, 2, 1, "Analyst", "Back office");
    job := j.status;
  }

  /**
   * Jobs are never reached through grants: even after coach 1 also grants recruiter 2 'Jobs' access
   * to recruiter 1's candidate (201), recruiter 2 cannot add a job to it (404).
   */
  method JobsGrantStillRefused() returns (granted: int, job: int)
    ensures granted == 201 && job == 404
  {
    var db, _ := ShareNotes();
    assert Assigned(db.recruiters.rows, db.coachRecruiter.rows, 1, 1) by {
      assert db.coachRecruiter.rows[1] == Assignment(1, 1);
    }
    assert Assigned(db.recruiters.rows, db.coachRecruiter.rows, 1, 2) by {
      assert db.coachRecruiter.rows[2] == Assignment(1, 2);
    }
    var r := PermissionController.Store(db, Some(1), 2, 1, 1, 1);
    granted := r.status;
    var j := JobController.Store(db, 2, 1, "Analyst", "Back office");
    job := j.status;
  }

  /**
   * Only the issuing coach can revoke: a request from coach id 2, which issued nothing (no coach row
   * exists under that id), is answered 404, coach 1's 200, and
   * recruiter 2's next note on the candidate is refused (404).
   */
  method RevocationIsImmediate() returns (foreignRevoke: int, revoke: int, noteAfter: int)
    ensures foreignRevoke == 404 && revoke == 200 && noteAfter == 404
  {
    var db, _ := ShareNotes();
    var r := PermissionController.Destroy(db, Some(2), 1);
    foreignRevoke := r.status;
    r := PermissionController.Destroy(db, Some(1), 1);
    revoke := r.status;
    assert db.permissions.rows == map[];
    var req := new Request();
    var n := NoteController.Store(db, req, Some(2), 1, "Follow up", "Second call");
    noteAfter := n.status;
  }

  /**
   * A coach acting for its recruiter: the gate lets coach 1 through for recruiter 1's candidate and
   * the note is then written under recruiter 1, while coach id 2, which has no recruiters (no coach
   * row exists under that id), is refused.
   */
  method CoachWritesNoteForItsRecruiter() returns (passed: Verdict, refused: Verdict, note: Response<Row<Entry>>)
    ensures passed == Next && refused == Reject(403, ForbiddenMessage)
    ensures note.status == 201 && note.body.Some? && note.body.value.value.recruiterId == 1
  {
    var db, _ := ShareNotes();
    assert Assigned(db.recruiters.rows, db.coachRecruiter.rows, 1, 1) by {
      assert db.coachRecruiter.rows[1] == Assignment(1, 1);
    }
    assert TypeIdOf(db.permissionTypes, "Notes") == 3 by { assert db.permissionTypes[3].tableName == "Notes"; }
    var other := new Request();
    refused := RecruiterAuthVariant.Handle(db, other, "Coach", Some(2), 1);
    var req := new Request();
    passed := RecruiterAuthVariant.Handle(db, req, "Coach", Some(1), 1);
    note := NoteController.Store(db, req, None, 1, "Met coach", "Shortlisted");
  }
}
