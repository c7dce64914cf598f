/** Rows of the recruiting store, one datatype per table, with the columns of the migrations. */
module Records {

  datatype Option<+T> = None | Some(value: T)

  /** A table with an auto-incrementing primary key: its rows by id and the id the next insert receives. */
  datatype Table<T> = Table(rows: map<int, T>, next: int) {

    /** Every id in use lies below the counter, so the counter is always a fresh id. */
    ghost predicate Valid() {
      1 <= next && forall k :: k in rows ==> 1 <= k < next
    }

    /** Insert a row under the next id. */
    function Insert(row: T): (t: Table<T>)
      requires Valid()
      ensures t.Valid() && next !in rows
      ensures t.rows == rows[next := row] && t.next == next + 1
    {
      Table(rows[next := row], next + 1)
    }

    /** Overwrite an existing row (the ORM's merge followed by save). */
    function Put(id: int, row: T): (t: Table<T>)
      requires Valid() && id in rows
      ensures t.Valid() && t.rows == rows[id := row] && t.next == next
    {
      Table(rows[id := row], next)
    }

    /** Delete the row with this id. */
    function Delete(id: int): (t: Table<T>)
      requires Valid()
      ensures t.Valid() && t.rows == rows - {id} && t.next == next
    {
      Table(rows - {id}, next)
    }
  }

  function EmptyTable<T>(): (t: Table<T>)
    ensures t.Valid() && t.rows == map[]
  {
    Table(map[], 1)
  }

  /** A row together with its primary key, as the ORM returns it. */
  datatype Row<T> = Row(id: int, value: T)

  datatype Director = Director(name: string, userId: Option<int>)
  datatype Coach = Coach(name: string, directorId: int)
  datatype Recruiter = Recruiter(name: string, userId: Option<int>)

  /** A row of the coach_recruiter pivot table. */
  datatype Assignment = Assignment(coachId: int, recruiterId: int)

  datatype Candidate = Candidate(name: string, recruiterId: int)

  /** A row of jobs, logs or notes: the three tables have the same columns. */
  datatype Entry = Entry(title: string, description: string, candidateId: int, recruiterId: int)

  datatype PermissionType = PermissionType(tableName: string)

  /** A grant: a coach lets a recruiter work on one candidate's rows of one permission type. */
  datatype Permission = Permission(recruiterId: int, permissionTypeId: int, coachId: int, candidateId: int)
}
