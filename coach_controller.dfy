/** Coaches of a director, the director named by `director_id` in the request body. */
module CoachController {
  import opened Records
  import opened Database
  import opened Http

  const Created := "The coach was created successfully"
  const Found := "The coach was found successfully"
  const NotFound := "Coach not found"
  const Updated := "The coach was updated"
  const CoachMissingOnUpdate := "The coach you tried to edit doesn't exist"
  const Deleted := "The coach was deleted"
  const CoachMissingOnDestroy := "The coach you tried to delete doesn't exists"

  /** The query on (id, director_id) finds a row. */
  predicate Supervises(coaches: map<int, Coach>, directorId: int, id: int)
  {
    id in coaches && coaches[id].directorId == directorId
  }

  /** The coaches query filtered on director_id. */
  function CoachesOf(coaches: map<int, Coach>, directorId: int): (r: map<int, Coach>)
    ensures forall k :: k in r <==> Supervises(coaches, directorId, k)
    ensures forall k :: k in r ==> k in coaches && r[k] == coaches[k]
  {
    map k | k in coaches && coaches[k].directorId == directorId :: coaches[k]
  }

  /** `index`: exactly the coaches whose director_id is the given one. */
  method Index(db: Db, directorId: int) returns (coaches: map<int, Coach>)
    ensures forall k :: k in coaches <==> k in db.coaches.rows && db.coaches.rows[k].directorId == directorId
    ensures forall k :: k in coaches ==> coaches[k] == db.coaches.rows[k]
  {
    coaches := CoachesOf(db.coaches.rows, directorId);
  }

  /** `store`: one new coach under the given director, 201; the director is not looked up. */
  method Store(db: Db, directorId: int, name: string) returns (res: Response<Row<Coach>>)
    requires db.Valid()
    modifies db
    ensures db.Valid() && db.Snapshot() == old(db.Snapshot()).(coaches := db.coaches)
    ensures var id := old(db.coaches.next);
            && res == Response(201, Created, Some(Row(id, Coach(name, directorId))))
            && id !in old(db.coaches.rows)
            && db.coaches.rows == old(db.coaches.rows)[id := Coach(name, directorId)] && db.coaches.next == old(db.coaches.next) + 1
  {
    var row := Coach(name, directorId);
    var coach := Row(db.coaches.next, row);
    db.coaches := db.coaches.Insert(row);
    res := Response(201, Created, Some(coach));
  }

  /** `show`: always 200; the coach when (id, director_id) match, otherwise a "not found" message and no coach. */
  method Show(db: Db, directorId: int, id: int) returns (res: Response<Row<Coach>>)
    ensures res.status == 200
    ensures Supervises(db.coaches.rows, directorId, id) ==> res == Response(200, Found, Some(Row(id, db.coaches.rows[id])))
    ensures !Supervises(db.coaches.rows, directorId, id) ==> res == Response(200, NotFound, None)
  {
    var coach: Option<Row<Coach>> := None;
    var message := NotFound;
    if Supervises(db.coaches.rows, directorId, id) {
      coach := Some(Row(id, db.coaches.rows[id]));
      message := Found;
    }
    res := Response(200, message, coach);
  }

  /** `update`: 404 unless (id, director_id) match; otherwise renames that coach only. */
  method Update(db: Db, directorId: int, id: int, name: string) returns (res: Response<Row<Coach>>)
    requires db.Valid()
    modifies db
    ensures db.Valid() && db.Snapshot() == old(db.Snapshot()).(coaches := db.coaches)
    ensures !Supervises(old(db.coaches.rows), directorId, id) ==>
              res == Response(404, CoachMissingOnUpdate, None) && db.coaches == old(db.coaches)
    ensures Supervises(old(db.coaches.rows), directorId, id) ==>
              res == Response(200, Updated, Some(Row(id, Coach(name, directorId))))
              && db.coaches.rows == old(db.coaches.rows)[id := Coach(name, directorId)] && db.coaches.next == old(db.coaches.next)
  {
    if !Supervises(db.coaches.rows, directorId, id) {
      return Response(404, CoachMissingOnUpdate, None);
    }
    var merged := db.coaches.rows[id].(name := name);
    db.coaches := db.coaches.Put(id, merged);
    res := Response(200, Updated, Some(Row(id, merged)));
  }

  /** `destroy`: 404 unless (id, director_id) match; otherwise deletes that coach only. */
  method Destroy(db: Db, directorId: int, id: int) returns (res: Response<Row<Coach>>)
    requires db.Valid()
    modifies db
    ensures db.Valid() && db.Snapshot() == old(db.Snapshot()).(coaches := db.coaches)
    ensures !Supervises(old(db.coaches.rows), directorId, id) ==>
              res == Response(404, CoachMissingOnDestroy, None) && db.coaches == old(db.coaches)
    ensures Supervises(old(db.coaches.rows), directorId, id) ==>
              res == Response(200, Deleted, Some(Row(id, old(db.coaches.rows)[id])))
              && db.coaches.rows == old(db.coaches.rows) - {id} && db.coaches.next == old(db.coaches.next)
  {
    if !Supervises(db.coaches.rows, directorId, id) {
      return Response(404, CoachMissingOnDestroy, None);
    }
    var coach := Row(id, db.coaches.rows[id]);
    db.coaches := db.coaches.Delete(id);
    res := Response(200, Deleted, Some(coach));
  }

  /** Deleting one of a director's coaches removes it from that director's list and from no other list. */
  lemma DeletedCoachLeavesOnlyItsList(coaches: map<int, Coach>, directorId: int, id: int, other: int)
    requires Supervises(coaches, directorId, id)
    ensures id !in CoachesOf(coaches - {id}, directorId)
    ensures other != directorId ==> CoachesOf(coaches - {id}, other) == CoachesOf(coaches, other)
  {
  }
}
