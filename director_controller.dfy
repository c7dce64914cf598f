/** Directors, addressed by id alone. */
module DirectorController {
  import opened Records
  import opened Database
  import opened Http

  const Found := "The director was found successfully"
  const DirectorMissingOnShow := "The director was not found"
  const Updated := "The director was updated"
  const DirectorMissingOnUpdate := "The director you tried to edit doesn't exist"
  const Deleted := "The director was deleted"
  const DirectorMissingOnDestroy := "The director you tried to delete doesn't exists"

  /** `index`: every director. */
  method Index(db: Db) returns (directors: map<int, Director>)
    ensures directors.Keys == db.directors.rows.Keys
    ensures forall k :: k in directors ==> directors[k] == db.directors.rows[k]
  {
    directors := db.directors.rows;
  }

  /** `show`: the director with the id, else 404. */
  method Show(db: Db, id: int) returns (res: Response<Row<Director>>)
    ensures id !in db.directors.rows ==> res == Response(404, DirectorMissingOnShow, None)
    ensures id in db.directors.rows ==> res == Response(200, Found, Some(Row(id, db.directors.rows[id])))
  {
    var director: Option<Row<Director>> := None;
    var message := Found;
    var status := 200;
    if id in db.directors.rows {
      director := Some(Row(id, db.directors.rows[id]));
    } else {
      message := DirectorMissingOnShow;
      status := 404;
    }
    res := Response(status, message, director);
  }

  /** `update`: renames an existing director, keeping its user link; an unknown id gives 404. */
  method Update(db: Db, id: int, name: string) returns (res: Response<Row<Director>>)
    requires db.Valid()
    modifies db
    ensures db.Valid() && db.Snapshot() == old(db.Snapshot()).(directors := db.directors)
    ensures id !in old(db.directors.rows) ==>
              res == Response(404, DirectorMissingOnUpdate, None) && db.directors == old(db.directors)
    ensures id in old(db.directors.rows) ==>
              var director := Director(name, old(db.directors.rows)[id].userId);
              res == Response(200, Updated, Some(Row(id, director))) && db.directors.rows == old(db.directors.rows)[id := director] && db.directors.next == old(db.directors.next)
  {
    var director: Option<Row<Director>> := None;
    var message := Updated;
    var status := 200;
    if id in db.directors.rows {
      var merged := db.directors.rows[id].(name := name);
      db.directors := db.directors.Put(id, merged);
      director := Some(Row(id, merged));
    } else {
      message := DirectorMissingOnUpdate;
      status := 404;
    }
    res := Response(status, message, director);
  }

  /** `destroy`: deletes the director with the id only; an unknown id gives 404 and no change. */
  method Destroy(db: Db, id: int) returns (res: Response<Row<Director>>)
    requires db.Valid()
    modifies db
    ensures db.Valid() && db.Snapshot() == old(db.Snapshot()).(directors := db.directors)
    ensures id !in old(db.directors.rows) ==>
              res == Response(404, DirectorMissingOnDestroy, None) && db.directors == old(db.directors)
    ensures id in old(db.directors.rows) ==>
              res == Response(200, Deleted, Some(Row(id, old(db.directors.rows)[id])))
              && db.directors.rows == old(db.directors.rows) - {id} && db.directors.next == old(db.directors.next)
  {
    var director: Option<Row<Director>> := None;
    var message := Deleted;
    var status := 200;
    if id in db.directors.rows {
      director := Some(Row(id, db.directors.rows[id]));
      db.directors := db.directors.Delete(id);
    } else {
      message := DirectorMissingOnDestroy;
      status := 404;
    }
    res := Response(status, message, director);
  }
}
