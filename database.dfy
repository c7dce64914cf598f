/** The relational store behind the controllers: one field per table, each a map from id to row. */
module Database {
  import opened Records
  import opened Access

  /** The value of every table at one moment, for stating what an operation leaves unchanged. */
  datatype Tables = Tables(
    directors: Table<Director>,
    coaches: Table<Coach>,
    recruiters: Table<Recruiter>,
    coachRecruiter: Table<Assignment>,
    candidates: Table<Candidate>,
    jobs: Table<Entry>,
    logs: Table<Entry>,
    notes: Table<Entry>,
    permissionTypes: map<int, PermissionType>,
    permissions: Table<Permission>)

  class Db {
    var directors: Table<Director>
    var coaches: Table<Coach>
    var recruiters: Table<Recruiter>
    var coachRecruiter: Table<Assignment>
    var candidates: Table<Candidate>
    var jobs: Table<Entry>
    var logs: Table<Entry>
    var notes: Table<Entry>
    var permissionTypes: map<int, PermissionType>
    var permissions: Table<Permission>

    /** Every counter is ahead of the ids in use, and each permission type name names one row. */
    ghost predicate Valid()
      reads this
    {
      && directors.Valid() && coaches.Valid() && recruiters.Valid() && coachRecruiter.Valid()
      && candidates.Valid() && jobs.Valid() && logs.Valid() && notes.Valid() && permissions.Valid()
      && TypeNamesDistinct(permissionTypes)
    }

    ghost function Snapshot(): Tables
      reads this
    {
      Tables(directors, coaches, recruiters, coachRecruiter, candidates, jobs, logs, notes, permissionTypes, permissions)
    }

    /** An empty store whose permission_types table holds the given reference rows. */
    constructor(types: map<int, PermissionType>)
      requires TypeNamesDistinct(types)
      ensures Valid()
      ensures Snapshot() == Tables(EmptyTable(), EmptyTable(), EmptyTable(), EmptyTable(), EmptyTable(),
                                   EmptyTable(), EmptyTable(), EmptyTable(), types, EmptyTable())
    {
      directors, coaches, recruiters, coachRecruiter := EmptyTable(), EmptyTable(), EmptyTable(), EmptyTable();
      candidates, jobs, logs, notes := EmptyTable(), EmptyTable(), EmptyTable(), EmptyTable();
      permissionTypes, permissions := types, EmptyTable();
    }
  }
}
